/**
 * The daily digest: a ranked list of scored jobs stamped with the day it
 * was made, valid only on that day.
 */
module Digests {
  import opened Wrappers

  datatype DigestEntry = DigestEntry(title: string, company: string, score: int)

  /** A digest and the date string of the day it was generated. */
  datatype Digest = Digest(data: seq<DigestEntry>, timestamp: string)

  /** Each score is above the next one. */
  predicate StepsDown(s: seq<DigestEntry>)
  {
    forall i :: 0 <= i < |s| - 1 ==> s[i].score > s[i + 1].score
  }

  /** Every entry scores above every later entry. */
  predicate StrictlyDescending(s: seq<DigestEntry>)
  {
    forall i, j :: 0 <= i < j < |s| ==> s[i].score > s[j].score
  }

  /** The fixed list of ten jobs the generator produces. */
  function MockDigest(): (r: seq<DigestEntry>)
    ensures |r| == 10
    ensures StrictlyDescending(r)
    ensures r[0].score == 95 && r[9].score == 75
    ensures forall i :: 0 <= i < |r| ==> 75 <= r[i].score <= 95
  {
    var r := [
      DigestEntry("Senior React Developer", "TechCorp", 95),
      DigestEntry("Frontend Engineer", "StartupXYZ", 92),
      DigestEntry("Full Stack Developer", "BigTech Inc", 89),
      DigestEntry("JavaScript Developer", "WebCorp", 87),
      DigestEntry("UI/UX Developer", "DesignCo", 85),
      DigestEntry("Software Engineer", "CodeBase", 83),
      DigestEntry("Web Developer", "NetSolutions", 81),
      DigestEntry("Frontend Specialist", "DevStudio", 79),
      DigestEntry("React Native Developer", "MobileFirst", 77),
      DigestEntry("TypeScript Developer", "TypeCorp", 75)
    ];
    StepsDownIsStrict(r, 0);
    r
  }

  /** Stepping down between neighbours orders the whole list. */
  lemma {:induction false} StepsDownIsStrict(s: seq<DigestEntry>, from: nat)
    requires StepsDown(s)
    requires from <= |s|
    ensures forall i, j :: from <= i < j < |s| ==> s[i].score > s[j].score
    decreases |s| - from
  {
    if from < |s| {
      StepsDownIsStrict(s, from + 1);
      forall j | from < j < |s|
        ensures s[from].score > s[j].score
      {
        assert s[from].score > s[from + 1].score;
      }
    }
  }

  /** The entry shown with rank `rank`: ranks are positions counted from 1. */
  function EntryAtRank(s: seq<DigestEntry>, rank: nat): (e: DigestEntry)
    requires 1 <= rank <= |s|
    ensures e in s
  {
    s[rank - 1]
  }

  /** In the generated list a better rank has a strictly higher score, so
      rank 1 holds the highest score of all. */
  lemma RankOrder(r1: nat, r2: nat)
    requires 1 <= r1 < r2 <= |MockDigest()|
    ensures EntryAtRank(MockDigest(), r1).score > EntryAtRank(MockDigest(), r2).score
    ensures EntryAtRank(MockDigest(), 1).score >= EntryAtRank(MockDigest(), r2).score
  {
  }

  /** Loading: the saved digest only when it was stamped today. */
  function LoadDigest(saved: Option<Digest>, today: string): (r: Option<Digest>)
    ensures r.Some? <==> saved.Some? && saved.value.timestamp == today
    ensures r.Some? ==> r == saved
  {
    match saved
    case Some(d) => if d.timestamp == today then saved else None
    case None => None
  }

  /** A digest generated on one day is treated as absent on any other day. */
  lemma GeneratedDigestExpires(day: string, later: string)
    ensures LoadDigest(Some(Digest(MockDigest(), day)), day) == Some(Digest(MockDigest(), day))
    ensures later != day ==> LoadDigest(Some(Digest(MockDigest(), day)), later) == None
  {
  }
}
