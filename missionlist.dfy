/** The mission list view: the sort criterion and direction the user picks, the
    comparator for each criterion, and the stable sort that yields the view. */
module MissionList {
  import opened Types

  datatype Criterion = Time | Xp | DifficultyTier
  datatype Direction = Asc | Desc

  datatype SortState = SortState(criterion: Criterion, order: Direction)

  const InitialSort: SortState := SortState(Time, Asc)

  /** Choosing the active criterion flips the direction; choosing another one
      switches to it in ascending order. */
  function NextSort(cur: SortState, c: Criterion): (r: SortState)
    ensures r.criterion == c
    ensures cur.criterion == c ==> r.order != cur.order
    ensures cur.criterion != c ==> r.order == Asc
  {
    if cur.criterion == c then
      SortState(c, if cur.order == Asc then Desc else Asc)
    else
      SortState(c, Asc)
  }

  /** Choosing the same criterion twice restores the state. */
  lemma NextSortTwiceRestores(cur: SortState)
    ensures NextSort(NextSort(cur, cur.criterion), cur.criterion) == cur
  {
  }

  // ---------------------------------------------------------------------
  // Comparators

  /** Lexicographic comparison by character, the model of localeCompare. */
  function CompareStrings(a: string, b: string): (r: int)
    ensures -1 <= r <= 1
  {
    if a == [] && b == [] then 0
    else if a == [] then -1
    else if b == [] then 1
    else if a[0] < b[0] then -1
    else if a[0] > b[0] then 1
    else CompareStrings(a[1..], b[1..])
  }

  lemma {:induction false} CompareStringsAntisymmetric(a: string, b: string)
    ensures CompareStrings(a, b) == -CompareStrings(b, a)
    decreases |a|
  {
    if a != [] && b != [] && a[0] == b[0] {
      CompareStringsAntisymmetric(a[1..], b[1..]);
    }
  }

  lemma {:induction false} CompareStringsZeroIffEqual(a: string, b: string)
    ensures CompareStrings(a, b) == 0 <==> a == b
    decreases |a|
  {
    if a != [] && b != [] && a[0] == b[0] {
      CompareStringsZeroIffEqual(a[1..], b[1..]);
      assert a == [a[0]] + a[1..] && b == [b[0]] + b[1..];
    }
  }

  /** The rank table of the difficulty tiers. */
  function Rank(d: Difficulty): (k: int)
    ensures 1 <= k <= 3
    ensures d == Rookie <==> k == 1
    ensures d == Vigilante <==> k == 2
    ensures d == Knight <==> k == 3
  {
    match d
    case Rookie => 1
    case Vigilante => 2
    case Knight => 3
  }

  /** The ascending comparison for a criterion: at most zero exactly when the
      first key is at most the second, zero exactly on a tie. */
  function CompareBy(a: Mission, b: Mission, c: Criterion): (r: int)
    ensures r <= 0 <==> KeyAtMost(a, b, c)
    ensures r >= 0 <==> KeyAtMost(b, a, c)
    ensures r == 0 <==> SameKey(a, b, c)
  {
    match c
    case Time =>
      CompareStringsAntisymmetric(a.startTime, b.startTime);
      CompareStringsZeroIffEqual(a.startTime, b.startTime);
      CompareStrings(a.startTime, b.startTime)
    case Xp => a.xpReward - b.xpReward
    case DifficultyTier => Rank(a.difficulty) - Rank(b.difficulty)
  }

  /** The comparator passed to sort: descending negates the ascending result,
      so it orders by ascending keys for Asc and descending keys for Desc. */
  function Compare(a: Mission, b: Mission, c: Criterion, o: Direction): (r: int)
    ensures o == Asc ==> (r <= 0 <==> KeyAtMost(a, b, c))
    ensures o == Desc ==> (r <= 0 <==> KeyAtMost(b, a, c))
    ensures r == 0 <==> SameKey(a, b, c)
  {
    var res := CompareBy(a, b, c);
    if o == Asc then res else -res
  }

  /** Two missions have the same key under a criterion. */
  predicate SameKey(a: Mission, b: Mission, c: Criterion)
  {
    match c
    case Time => a.startTime == b.startTime
    case Xp => a.xpReward == b.xpReward
    case DifficultyTier => a.difficulty == b.difficulty
  }

  /** The ascending order of the key: string order of start times, reward, or rank. */
  predicate KeyAtMost(a: Mission, b: Mission, c: Criterion)
  {
    match c
    case Time => CompareStrings(a.startTime, b.startTime) <= 0
    case Xp => a.xpReward <= b.xpReward
    case DifficultyTier => Rank(a.difficulty) <= Rank(b.difficulty)
  }

  lemma CompareAntisymmetric(a: Mission, b: Mission, c: Criterion, o: Direction)
    ensures Compare(a, b, c, o) == -Compare(b, a, c, o)
  {
    if c == Time {
      CompareStringsAntisymmetric(a.startTime, b.startTime);
    }
  }

  /** A comparison of zero is exactly a tie on the key, in either direction. */
  lemma CompareZeroIffSameKey(a: Mission, b: Mission, c: Criterion, o: Direction)
    ensures Compare(a, b, c, o) == 0 <==> SameKey(a, b, c)
  {
    if c == Time {
      CompareStringsZeroIffEqual(a.startTime, b.startTime);
    }
  }

  // ---------------------------------------------------------------------
  // The stable sort

  /** Inserts x before the first element it does not compare above. */
  function Insert(x: Mission, s: seq<Mission>, c: Criterion, o: Direction): (r: seq<Mission>)
    ensures |r| == |s| + 1
    ensures r[0] == x || (s != [] && r[0] == s[0])
    decreases |s|
  {
    if s == [] then [x]
    else if Compare(x, s[0], c, o) <= 0 then [x] + s
    else [s[0]] + Insert(x, s[1..], c, o)
  }

  /** The sorted copy of the list; the input sequence is a value and is not changed. */
  function SortMissions(s: seq<Mission>, c: Criterion, o: Direction): (r: seq<Mission>)
    ensures |r| == |s|
    decreases |s|
  {
    if s == [] then [] else Insert(s[0], SortMissions(s[1..], c, o), c, o)
  }

  /** Every element compares at most zero with the next one. */
  predicate Ordered(s: seq<Mission>, c: Criterion, o: Direction)
  {
    forall i :: 0 < i < |s| ==> Compare(s[i - 1], s[i], c, o) <= 0
  }

  /** The elements of s that tie with z, in the order they occur in s. */
  function Ties(s: seq<Mission>, z: Mission, c: Criterion): seq<Mission>
    decreases |s|
  {
    if s == [] then []
    else (if SameKey(z, s[0], c) then [s[0]] else []) + Ties(s[1..], z, c)
  }

  lemma {:induction false} TiesAppend(a: seq<Mission>, b: seq<Mission>, z: Mission, c: Criterion)
    ensures Ties(a + b, z, c) == Ties(a, z, c) + Ties(b, z, c)
    decreases |a|
  {
    if a != [] {
      var h := if SameKey(z, a[0], c) then [a[0]] else [];
      assert (a + b)[0] == a[0] && (a + b)[1..] == a[1..] + b;
      TiesAppend(a[1..], b, z, c);
      calc {
        Ties(a + b, z, c);
        h + Ties(a[1..] + b, z, c);
        h + (Ties(a[1..], z, c) + Ties(b, z, c));
        (h + Ties(a[1..], z, c)) + Ties(b, z, c);
        Ties(a, z, c) + Ties(b, z, c);
      }
    } else {
      assert a + b == b;
    }
  }

  lemma {:induction false} InsertPermutes(x: Mission, s: seq<Mission>, c: Criterion, o: Direction)
    ensures multiset(Insert(x, s, c, o)) == multiset(s) + multiset{x}
    decreases |s|
  {
    if s != [] && Compare(x, s[0], c, o) > 0 {
      InsertPermutes(x, s[1..], c, o);
      assert s == [s[0]] + s[1..];
    }
  }

  lemma {:induction false} InsertOrdered(x: Mission, s: seq<Mission>, c: Criterion, o: Direction)
    requires Ordered(s, c, o)
    ensures Ordered(Insert(x, s, c, o), c, o)
    decreases |s|
  {
    if s != [] {
      if Compare(x, s[0], c, o) <= 0 {
        var r := [x] + s;
        forall i | 0 < i < |r| ensures Compare(r[i - 1], r[i], c, o) <= 0 {
          if i > 1 { assert r[i - 1] == s[i - 2] && r[i] == s[i - 1]; }
        }
      } else {
        var t := s[1..];
        assert Ordered(t, c, o) by {
          forall i | 0 < i < |t| ensures Compare(t[i - 1], t[i], c, o) <= 0 {
            assert t[i - 1] == s[i] && t[i] == s[i + 1];
          }
        }
        InsertOrdered(x, t, c, o);
        var ins := Insert(x, t, c, o);
        var r := [s[0]] + ins;
        CompareAntisymmetric(x, s[0], c, o);
        forall i | 0 < i < |r| ensures Compare(r[i - 1], r[i], c, o) <= 0 {
          if i > 1 { assert r[i - 1] == ins[i - 2] && r[i] == ins[i - 1]; }
          else if |s| > 1 && ins[0] == s[1] { assert Compare(s[0], s[1], c, o) <= 0; }
        }
      }
    }
  }

  /** The ties of a sequence with a known head. */
  lemma TiesCons(y: Mission, t: seq<Mission>, z: Mission, c: Criterion)
    ensures Ties([y] + t, z, c) == (if SameKey(z, y, c) then [y] else []) + Ties(t, z, c)
  {
    assert ([y] + t)[1..] == t;
  }

  /** Two neighbours that cannot both tie with z may trade places. */
  lemma TiesSwapHead(x: Mission, y: Mission, t: seq<Mission>, z: Mission, c: Criterion)
    requires !(SameKey(z, x, c) && SameKey(z, y, c))
    ensures Ties([y] + ([x] + t), z, c) == Ties([x] + ([y] + t), z, c)
  {
    TiesCons(y, [x] + t, z, c);
    TiesCons(x, t, z, c);
    TiesCons(x, [y] + t, z, c);
    TiesCons(y, t, z, c);
    if SameKey(z, x, c) {
      assert Ties([y] + ([x] + t), z, c) == [x] + Ties(t, z, c);
    } else if SameKey(z, y, c) {
      assert Ties([x] + ([y] + t), z, c) == [y] + Ties(t, z, c);
    }
  }

  /** Inserting x keeps it ahead of every later element with the same key. */
  lemma {:induction false} InsertKeepsTies(x: Mission, s: seq<Mission>, z: Mission, c: Criterion, o: Direction)
    ensures Ties(Insert(x, s, c, o), z, c) == Ties([x] + s, z, c)
    decreases |s|
  {
    if s != [] && Compare(x, s[0], c, o) > 0 {
      var rest := Insert(x, s[1..], c, o);
      InsertKeepsTies(x, s[1..], z, c, o);
      // x passes s[0] only when their keys differ, so z cannot tie with both.
      assert !SameKey(x, s[0], c);
      TiesCons(s[0], rest, z, c);
      TiesCons(s[0], [x] + s[1..], z, c);
      TiesSwapHead(x, s[0], s[1..], z, c);
      assert [s[0]] + s[1..] == s;
    }
  }

  /** The sorted view is a permutation of the list. */
  lemma {:induction false} SortPermutes(s: seq<Mission>, c: Criterion, o: Direction)
    ensures |SortMissions(s, c, o)| == |s|
    ensures multiset(SortMissions(s, c, o)) == multiset(s)
    decreases |s|
  {
    if s != [] {
      SortPermutes(s[1..], c, o);
      InsertPermutes(s[0], SortMissions(s[1..], c, o), c, o);
      assert s == [s[0]] + s[1..];
    }
  }

  /** The sorted view is ordered by the comparator. */
  lemma {:induction false} SortOrdered(s: seq<Mission>, c: Criterion, o: Direction)
    ensures Ordered(SortMissions(s, c, o), c, o)
    decreases |s|
  {
    if s != [] {
      SortOrdered(s[1..], c, o);
      InsertOrdered(s[0], SortMissions(s[1..], c, o), c, o);
    }
  }

  /** The sort is stable: missions with equal keys keep their input order. */
  lemma {:induction false} SortStable(s: seq<Mission>, z: Mission, c: Criterion, o: Direction)
    ensures Ties(SortMissions(s, c, o), z, c) == Ties(s, z, c)
    decreases |s|
  {
    if s != [] {
      SortStable(s[1..], z, c, o);
      InsertKeepsTies(s[0], SortMissions(s[1..], c, o), z, c, o);
      TiesAppend([s[0]], SortMissions(s[1..], c, o), z, c);
      TiesAppend([s[0]], s[1..], z, c);
      assert s == [s[0]] + s[1..];
    }
  }

  /** Stability for every tie class at once. */
  lemma SortStableAll(s: seq<Mission>, c: Criterion, o: Direction)
    ensures forall z :: Ties(SortMissions(s, c, o), z, c) == Ties(s, z, c)
  {
    forall z ensures Ties(SortMissions(s, c, o), z, c) == Ties(s, z, c) {
      SortStable(s, z, c, o);
    }
  }

  /** Ordered by the comparator means ordered by the key: ascending keys for
      ascending, descending keys for descending. */
  lemma OrderedByKey(s: seq<Mission>, c: Criterion, o: Direction)
    requires Ordered(s, c, o)
    ensures forall i :: 0 < i < |s| ==>
              if o == Asc then KeyAtMost(s[i - 1], s[i], c) else KeyAtMost(s[i], s[i - 1], c)
  {
    forall i | 0 < i < |s|
      ensures if o == Asc then KeyAtMost(s[i - 1], s[i], c) else KeyAtMost(s[i], s[i - 1], c)
    {
      assert Compare(s[i - 1], s[i], c, o) <= 0;
      if c == Time {
        CompareStringsAntisymmetric(s[i - 1].startTime, s[i].startTime);
      }
    }
  }

  // ---------------------------------------------------------------------
  // Start times

  predicate IsDigit(ch: char) { '0' <= ch <= '9' }

  function DigitValue(ch: char): int { ch as int - '0' as int }

  /** A zero-padded 24-hour "HH:MM" string. */
  predicate WellFormedTime(s: string)
  {
    |s| == 5 && IsDigit(s[0]) && IsDigit(s[1]) && s[2] == ':' && IsDigit(s[3]) && IsDigit(s[4]) &&
    10 * DigitValue(s[0]) + DigitValue(s[1]) <= 23 && DigitValue(s[3]) <= 5
  }

  function MinutesOfDay(s: string): int
    requires WellFormedTime(s)
  {
    60 * (10 * DigitValue(s[0]) + DigitValue(s[1])) + 10 * DigitValue(s[3]) + DigitValue(s[4])
  }

  /** Comparing two strings with the same first character compares the rests. */
  lemma CompareStringsStep(a: string, b: string)
    requires a != [] && b != [] && a[0] == b[0]
    ensures CompareStrings(a, b) == CompareStrings(a[1..], b[1..])
  {
  }

  /** On well-formed start times, text order is clock order, so comparing the
      strings sorts missions by when they start. */
  lemma TimeOrderIsClockOrder(a: string, b: string)
    requires WellFormedTime(a) && WellFormedTime(b)
    ensures CompareStrings(a, b) < 0 <==> MinutesOfDay(a) < MinutesOfDay(b)
    ensures CompareStrings(a, b) == 0 <==> MinutesOfDay(a) == MinutesOfDay(b)
  {
    if a[0] == b[0] {
      CompareStringsStep(a, b);
      var a1, b1 := a[1..], b[1..];
      if a1[0] == b1[0] {
        CompareStringsStep(a1, b1);
        var a2, b2 := a1[1..], b1[1..];
        CompareStringsStep(a2, b2);
        var a3, b3 := a2[1..], b2[1..];
        if a3[0] == b3[0] {
          CompareStringsStep(a3, b3);
          var a4, b4 := a3[1..], b3[1..];
          if a4[0] == b4[0] {
            CompareStringsStep(a4, b4);
            assert a4[1..] == [] && b4[1..] == [];
          }
        }
      }
    }
  }

  /** The example of two missions at "16:00" and "09:00": ascending by time puts
      "09:00" first, descending puts "16:00" first. */
  lemma SortByTimeExample(m1: Mission, m2: Mission)
    requires m1.startTime == "16:00" && m2.startTime == "09:00"
    ensures SortMissions([m1, m2], Time, Asc) == [m2, m1]
    ensures SortMissions([m1, m2], Time, Desc) == [m1, m2]
  {
    assert CompareStrings(m2.startTime, m1.startTime) == -1;
    assert CompareStrings(m1.startTime, m2.startTime) == 1;
    assert [m1, m2][1..] == [m2] && [m2][1..] == [];
    assert SortMissions([m2], Time, Asc) == [m2] && SortMissions([m2], Time, Desc) == [m2];
  }
}
