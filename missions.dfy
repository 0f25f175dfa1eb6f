/** Operations on the stored mission list: finding a mission by id, marking a
    mission complete, and turning service drafts into missions. */
module Missions {
  import opened Types

  /** The index of the first mission with the id, as Array.prototype.find picks it. */
  function FindIndex(ms: seq<Mission>, id: string): (r: Option<nat>)
    ensures r.Some? ==> r.value < |ms| && ms[r.value].id == id &&
                        forall j :: 0 <= j < r.value ==> ms[j].id != id
    ensures r.None? <==> forall j :: 0 <= j < |ms| ==> ms[j].id != id
    decreases |ms|
  {
    if ms == [] then None
    else if ms[0].id == id then Some(0)
    else match FindIndex(ms[1..], id)
      case None => None
      case Some(k) => Some(k + 1)
  }

  /** Every mission with the id becomes completed; nothing else changes. */
  function MarkCompleted(ms: seq<Mission>, id: string): (r: seq<Mission>)
    ensures |r| == |ms|
    ensures forall i :: 0 <= i < |ms| ==>
              r[i].isCompleted == (ms[i].isCompleted || ms[i].id == id) &&
              r[i].(isCompleted := ms[i].isCompleted) == ms[i]
  {
    seq(|ms|, i requires 0 <= i < |ms| =>
      if ms[i].id == id then ms[i].(isCompleted := true) else ms[i])
  }

  /** Marking completes the first mission with the id and leaves the lookup of
      every id where it was. */
  lemma MarkCompletedFind(ms: seq<Mission>, id: string, other: string)
    ensures FindIndex(MarkCompleted(ms, id), other) == FindIndex(ms, other)
    ensures match FindIndex(MarkCompleted(ms, id), id)
            case None => true
            case Some(i) => MarkCompleted(ms, id)[i].isCompleted
  {
  }

  /** The pending debrief target, when there is one, is found and incomplete. */
  predicate PendingIncomplete(ms: seq<Mission>, pending: Option<string>)
  {
    pending.Some? ==>
      match FindIndex(ms, pending.value)
      case None => true
      case Some(i) => !ms[i].isCompleted
  }

  /** The decimal digit for 0 <= d <= 9. */
  function DigitChar(d: int): char
    requires 0 <= d <= 9
  {
    ((d + '0' as int) as char)
  }

  /** Number.prototype.toString for a non-negative integer. */
  function Decimal(n: nat): (s: string)
    ensures |s| >= 1
    ensures n >= 10 ==> |s| >= 2
    ensures forall k :: 0 <= k < |s| ==> '0' <= s[k] <= '9'
    decreases n
  {
    if n < 10 then [DigitChar(n)] else Decimal(n / 10) + [DigitChar(n % 10)]
  }

  /** Distinct numbers print as distinct strings. */
  lemma {:induction false} DecimalInjective(a: nat, b: nat)
    requires Decimal(a) == Decimal(b)
    ensures a == b
    decreases a
  {
    var s := Decimal(a);
    assert DigitChar(a % 10) == s[|s| - 1] == DigitChar(b % 10);
    if a >= 10 && b >= 10 {
      assert Decimal(a / 10) == s[..|s| - 1] == Decimal(b / 10);
      DecimalInjective(a / 10, b / 10);
    }
  }

  /** The id given to the draft at an index: the clock reading followed by the index. */
  function MissionId(stamp: string, index: nat): (id: string)
    ensures |id| == |stamp| + |Decimal(index)|
    ensures id[..|stamp|] == stamp && id[|stamp|..] == Decimal(index)
  {
    stamp + Decimal(index)
  }

  /** One mission per draft, in draft order, each with a fresh id and not completed.
      The clock is read once per draft, so each draft has its own stamp. */
  function Normalize(drafts: seq<MissionDraft>, stamps: seq<string>): (r: seq<Mission>)
    requires |stamps| == |drafts|
    ensures |r| == |drafts|
    ensures forall i :: 0 <= i < |drafts| ==>
              !r[i].isCompleted && r[i].id == MissionId(stamps[i], i) &&
              r[i].title == drafts[i].title && r[i].description == drafts[i].description &&
              r[i].startTime == drafts[i].startTime &&
              r[i].durationMinutes == drafts[i].durationMinutes &&
              r[i].missionType == drafts[i].missionType &&
              r[i].xpReward == drafts[i].xpReward && r[i].difficulty == drafts[i].difficulty
  {
    seq(|drafts|, i requires 0 <= i < |drafts| =>
      var d := drafts[i];
      Mission(MissionId(stamps[i], i), d.title, d.description, d.startTime, d.durationMinutes,
              d.missionType, d.xpReward, false, d.difficulty))
  }

  /** The ids of one generation are pairwise distinct when the clock readings
      all have the same number of digits, as millisecond timestamps do for
      centuries at a time. */
  lemma NormalizedIdsDistinct(drafts: seq<MissionDraft>, stamps: seq<string>, i: nat, j: nat)
    requires |stamps| == |drafts|
    requires forall k :: 0 <= k < |stamps| ==> |stamps[k]| == |stamps[0]|
    requires i < |drafts| && j < |drafts| && i != j
    ensures Normalize(drafts, stamps)[i].id != Normalize(drafts, stamps)[j].id
  {
    var a, b := MissionId(stamps[i], i), MissionId(stamps[j], j);
    if a == b {
      assert |stamps[i]| == |stamps[j]|;
      assert Decimal(i) == a[|stamps[i]|..] == b[|stamps[j]|..] == Decimal(j);
      DecimalInjective(i, j);
    }
  }

  /** Readings of different lengths can collide: "99" with index 10 and "991"
      with index 0 give the same id. */
  lemma StampsOfDifferentLengthsCanCollide()
    ensures MissionId("99", 10) == MissionId("991", 0)
  {
    assert Decimal(10) == "10" && Decimal(0) == "0";
  }

  /** A freshly generated list has no completed mission, so any pending target is incomplete. */
  lemma NormalizedKeepsPendingIncomplete(drafts: seq<MissionDraft>, stamps: seq<string>, pending: Option<string>)
    requires |stamps| == |drafts|
    ensures PendingIncomplete(Normalize(drafts, stamps), pending)
  {
  }
}
