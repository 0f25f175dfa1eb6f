/** The session controller: the planner's in-memory state and the handlers
    that the user's actions and the decomposition service's replies run. */
module Session {
  import opened Types
  import opened Progression
  import opened MissionList
  import opened Missions
  import Ranks

  /** The message shown when the decomposition service fails. */
  const ConnectionError: string := "Failed to connect to Batcomputer. Network interference detected."

  /** What the decomposition service answered: drafts, or a thrown error. */
  datatype GenerationOutcome = Generated(drafts: seq<MissionDraft>) | ServiceFailed

  /** The pending id as JavaScript's truthiness test sees it: present and non-empty. */
  predicate HasPending(pending: Option<string>)
  {
    pending.Some? && pending.value != ""
  }

  class Controller {
    var missions: seq<Mission>
    var profile: UserProfile
    var debriefMissionId: Option<string>
    var loading: bool
    var error: Option<string>
    var sortBy: Criterion
    var sortOrder: Direction

    /** The pending debrief target is never a completed mission, and the profile
        is one the progression engine produces. */
    ghost predicate Valid()
      reads this
    {
      PendingIncomplete(missions, debriefMissionId) && ProfileSane(profile)
    }

    constructor ()
      ensures Valid()
      ensures missions == [] && profile == InitialProfile() && debriefMissionId == None
      ensures !loading && error == None && sortBy == Time && sortOrder == Asc
    {
      missions := [];
      profile := InitialProfile();
      debriefMissionId := None;
      loading := false;
      error := None;
      sortBy := Time;
      sortOrder := Asc;
    }

    /** The list as displayed: a stable sorted permutation of the stored list. */
    function SortedView(): (v: seq<Mission>)
      reads this
      ensures multiset(v) == multiset(missions)
      ensures Ordered(v, sortBy, sortOrder)
      ensures forall z :: Ties(v, z, sortBy) == Ties(missions, z, sortBy)
    {
      SortPermutes(missions, sortBy, sortOrder);
      SortOrdered(missions, sortBy, sortOrder);
      SortStableAll(missions, sortBy, sortOrder);
      SortMissions(missions, sortBy, sortOrder)
    }

    /** The rank title the profile panel shows; always a defined entry. */
    function CurrentRank(): (t: string)
      reads this
      requires Valid()
      ensures t in Ranks.RankTitles
    {
      Ranks.RankTitle(profile.level)
    }

    /** Opens the debrief of a mission, unless it is missing or already completed. */
    method InitiateDebrief(id: string)
      requires Valid()
      modifies this
      ensures Valid()
      ensures match old(FindIndex(missions, id))
              case None => debriefMissionId == old(debriefMissionId)
              case Some(i) =>
                debriefMissionId == if old(missions[i].isCompleted) then old(debriefMissionId) else Some(id)
      ensures missions == old(missions) && profile == old(profile)
      ensures loading == old(loading) && error == old(error)
      ensures sortBy == old(sortBy) && sortOrder == old(sortOrder)
    {
      var k := FindIndex(missions, id);
      if k.None? || missions[k.value].isCompleted {
        return;
      }
      debriefMissionId := Some(id);
    }

    /** Closes the debrief dialog without confirming. */
    method CancelDebrief()
      requires Valid()
      modifies this
      ensures Valid()
      ensures debriefMissionId == None
      ensures missions == old(missions) && profile == old(profile)
      ensures loading == old(loading) && error == old(error)
      ensures sortBy == old(sortBy) && sortOrder == old(sortOrder)
    {
      debriefMissionId := None;
    }

    /** Confirms the pending debrief with a multiplier: the target, which is
        incomplete, becomes completed and the profile is progressed once. */
    method FinalizeDebrief(m: Multiplier)
      requires Valid()
      modifies this
      ensures Valid()
      ensures !HasPending(old(debriefMissionId)) ==>
                debriefMissionId == old(debriefMissionId) &&
                missions == old(missions) && profile == old(profile)
      ensures HasPending(old(debriefMissionId)) ==> debriefMissionId == None
      ensures HasPending(old(debriefMissionId)) ==>
                var id := old(debriefMissionId).value;
                match old(FindIndex(missions, id))
                case None => missions == old(missions) && profile == old(profile)
                case Some(i) =>
                  !old(missions[i].isCompleted) &&
                  missions == MarkCompleted(old(missions), id) &&
                  profile == ApplyDebrief(old(profile), old(missions[i]), m) &&
                  FindIndex(missions, id) == Some(i) && missions[i].isCompleted
      ensures loading == old(loading) && error == old(error)
      ensures sortBy == old(sortBy) && sortOrder == old(sortOrder)
    {
      if !HasPending(debriefMissionId) {
        return;
      }
      var id := debriefMissionId.value;
      var k := FindIndex(missions, id);
      if k.None? {
        debriefMissionId := None;
        return;
      }
      var mission := missions[k.value];
      MarkCompletedFind(missions, id, id);
      missions := MarkCompleted(missions, id);
      ApplyDebriefKeepsSane(profile, mission, m);
      profile := ApplyDebrief(profile, mission, m);
      debriefMissionId := None;
    }

    /** The synchronous part of a generation request, before the service answers. */
    method BeginGeneration()
      requires Valid()
      modifies this
      ensures Valid()
      ensures loading && error == None
      ensures missions == old(missions) && profile == old(profile)
      ensures debriefMissionId == old(debriefMissionId)
      ensures sortBy == old(sortBy) && sortOrder == old(sortOrder)
    {
      loading := true;
      error := None;
    }

    /** The service's answer: a new list replaces the old one wholesale, or the
        error message is set. The clock readings that prefix fresh ids, one per
        draft, are a parameter. */
    method CompleteGeneration(outcome: GenerationOutcome, stamps: seq<string>)
      requires Valid()
      requires outcome.Generated? ==> |stamps| == |outcome.drafts|
      modifies this
      ensures Valid()
      ensures !loading
      ensures outcome.Generated? ==>
                missions == Normalize(outcome.drafts, stamps) && error == old(error)
      ensures outcome.ServiceFailed? ==>
                missions == old(missions) && error == Some(ConnectionError)
      ensures profile == old(profile) && debriefMissionId == old(debriefMissionId)
      ensures sortBy == old(sortBy) && sortOrder == old(sortOrder)
    {
      match outcome {
        case Generated(drafts) =>
          NormalizedKeepsPendingIncomplete(drafts, stamps, debriefMissionId);
          missions := Normalize(drafts, stamps);
        case ServiceFailed =>
          error := Some(ConnectionError);
      }
      loading := false;
    }

    /** A whole generation request, from the click to the service's answer. */
    method HandleGenerateSchedule(outcome: GenerationOutcome, stamps: seq<string>)
      requires Valid()
      requires outcome.Generated? ==> |stamps| == |outcome.drafts|
      modifies this
      ensures Valid()
      ensures !loading
      ensures outcome.Generated? ==>
                missions == Normalize(outcome.drafts, stamps) && error == None
      ensures outcome.ServiceFailed? ==>
                missions == old(missions) && error == Some(ConnectionError)
      ensures profile == old(profile) && debriefMissionId == old(debriefMissionId)
      ensures sortBy == old(sortBy) && sortOrder == old(sortOrder)
    {
      BeginGeneration();
      CompleteGeneration(outcome, stamps);
    }

    /** A click on a sort button. */
    method HandleSort(c: Criterion)
      requires Valid()
      modifies this
      ensures Valid()
      ensures SortState(sortBy, sortOrder) == NextSort(SortState(old(sortBy), old(sortOrder)), c)
      ensures missions == old(missions) && profile == old(profile)
      ensures debriefMissionId == old(debriefMissionId)
      ensures loading == old(loading) && error == old(error)
    {
      var next := NextSort(SortState(sortBy, sortOrder), c);
      sortBy := next.criterion;
      sortOrder := next.order;
    }
  }

  /** Debriefing the same mission twice, starting with no dialog open, awards XP
      at most once: the second opening finds the mission completed. */
  method DebriefTwiceAwardsOnce(c: Controller, id: string, first: Multiplier, second: Multiplier)
    requires c.Valid() && c.debriefMissionId == None
    modifies c
    ensures c.Valid()
    ensures c.profile ==
              match old(FindIndex(c.missions, id))
              case Some(i) =>
                if id != "" && !old(c.missions[i].isCompleted)
                then ApplyDebrief(old(c.profile), old(c.missions[i]), first)
                else old(c.profile)
              case None => old(c.profile)
  {
    c.InitiateDebrief(id);
    c.FinalizeDebrief(first);
    c.InitiateDebrief(id);
    c.FinalizeDebrief(second);
  }
}
