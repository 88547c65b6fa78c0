/**
 * The plan adapter: after a new analysis it softens the next hard session when the rider is tired,
 * sharpens the next easy session when the rider is fresh, and makes sure every ISO week of the
 * plan holds a rest day. The session array of the plan is edited in place.
 */
module PlanAdapter {
  import opened Common
  import opened PlanTypes
  import IsoWeek
  import Analysis = TrainingAnalysisModel

  const EnduranceAdaptedDescription: string := "Endurance ride Z1-Z2 (adapted)"
  const Vo2AdaptedDescription: string := "VO\U{2082}max intervals (adapted)"
  const RestDescription: string := "Rest day (auto-inserted)"

  /** Sessions from `today` onward that are not completed; only these are adapted. */
  predicate Upcoming(x: Session, today: int) {
    x.date >= today && !x.completed
  }

  predicate HasUpcoming(s: seq<Session>, today: int) {
    exists i :: 0 <= i < |s| && Upcoming(s[i], today)
  }

  const HardKinds: set<SessionKind> := {Vo2max, Threshold}
  const EasyKinds: set<SessionKind> := {Endurance}

  predicate Matches(x: Session, today: int, kinds: set<SessionKind>) {
    Upcoming(x, today) && x.kind in kinds
  }

  /** `upcoming.find(...)`: the index of the first upcoming session of one of `kinds`. */
  function FirstMatch(s: seq<Session>, today: int, kinds: set<SessionKind>): (r: Option<nat>)
    ensures r.Some? ==> r.value < |s| && Matches(s[r.value], today, kinds)
    ensures r.Some? ==> forall j :: 0 <= j < r.value ==> !Matches(s[j], today, kinds)
    ensures r.None? ==> forall j :: 0 <= j < |s| ==> !Matches(s[j], today, kinds)
  {
    if |s| == 0 then None
    else if Matches(s[0], today, kinds) then Some(0)
    else
      var rest := FirstMatch(s[1..], today, kinds);
      if rest.None? then None else Some(rest.value + 1)
  }

  /** `makeEndurance`: the workout becomes a 90-minute endurance ride; date, id and status stay. */
  function MakeEndurance(x: Session): (r: Session)
    ensures r.kind == Endurance && r.intensity == 3 && r.duration == 90
    ensures r.id == x.id && r.date == x.date && r.completed == x.completed
  {
    x.(kind := Endurance, intensity := 3, duration := 90, description := EnduranceAdaptedDescription)
  }

  /** `makeVO2`: the workout becomes a 60-minute VO2max session; date, id and status stay. */
  function MakeVo2(x: Session): (r: Session)
    ensures r.kind == Vo2max && r.intensity == 9 && r.duration == 60
    ensures r.id == x.id && r.date == x.date && r.completed == x.completed
  {
    x.(kind := Vo2max, intensity := 9, duration := 60, description := Vo2AdaptedDescription)
  }

  /** Rule 1: when fatigue is above 70 or recovery is needed, the next hard session is softened. */
  function Softened(s: seq<Session>, today: int, fatigue: int, recoveryNeeded: bool): seq<Session> {
    var i := FirstMatch(s, today, HardKinds);
    if (fatigue > 70 || recoveryNeeded) && i.Some? then s[i.value := MakeEndurance(s[i.value])] else s
  }

  /** Rule 2: when form is above 20, the next endurance session is sharpened. */
  function Sharpened(s: seq<Session>, today: int, form: int): seq<Session> {
    var i := FirstMatch(s, today, EasyKinds);
    if form > 20 && i.Some? then s[i.value := MakeVo2(s[i.value])] else s
  }

  /** Both rules, in the source's order; the second sees the edit of the first. */
  function Reshaped(s: seq<Session>, today: int, fatigue: int, recoveryNeeded: bool, form: int): seq<Session> {
    Sharpened(Softened(s, today, fatigue, recoveryNeeded), today, form)
  }

  /**
   * Each rule rewrites at most one session, which is the first upcoming one of its kinds: the
   * length, the dates, the ids and the completion flags all stay, and so does every session that
   * is past or completed. When its condition holds the rule does rewrite that session: rule 1 into
   * a 90-minute endurance ride, rule 2 into 60-minute VO2max intervals.
   */
  lemma SofteningTouchesOneUpcoming(s: seq<Session>, today: int, fatigue: int, recoveryNeeded: bool)
    ensures var r := Softened(s, today, fatigue, recoveryNeeded);
      |r| == |s| &&
      (forall j :: 0 <= j < |s| ==> r[j].date == s[j].date && r[j].id == s[j].id && r[j].completed == s[j].completed) &&
      (forall j :: 0 <= j < |s| && r[j] != s[j] ==>
        (fatigue > 70 || recoveryNeeded) && Matches(s[j], today, HardKinds) && r[j].kind == Endurance &&
        forall k :: 0 <= k < j ==> !Matches(s[k], today, HardKinds))
    ensures var r := Softened(s, today, fatigue, recoveryNeeded);
      forall i :: (fatigue > 70 || recoveryNeeded) && FirstMatch(s, today, HardKinds) == Some(i) ==>
        r[i] == MakeEndurance(s[i]) && r[i] != s[i]
  {
  }

  lemma SharpeningTouchesOneUpcoming(s: seq<Session>, today: int, form: int)
    ensures var r := Sharpened(s, today, form);
      |r| == |s| &&
      (forall j :: 0 <= j < |s| ==> r[j].date == s[j].date && r[j].id == s[j].id && r[j].completed == s[j].completed) &&
      (forall j :: 0 <= j < |s| && r[j] != s[j] ==>
        form > 20 && Matches(s[j], today, EasyKinds) && r[j].kind == Vo2max &&
        forall k :: 0 <= k < j ==> !Matches(s[k], today, EasyKinds))
    ensures var r := Sharpened(s, today, form);
      forall i :: form > 20 && FirstMatch(s, today, EasyKinds) == Some(i) ==> r[i] == MakeVo2(s[i]) && r[i] != s[i]
  {
  }

  /** The rules never touch a past or completed session. */
  lemma {:induction false} PastSessionsKept(s: seq<Session>, today: int, fatigue: int, recoveryNeeded: bool, form: int)
    ensures |Reshaped(s, today, fatigue, recoveryNeeded, form)| == |s|
    ensures forall j :: 0 <= j < |s| && !Upcoming(s[j], today) ==> Reshaped(s, today, fatigue, recoveryNeeded, form)[j] == s[j]
  {
    var a := Softened(s, today, fatigue, recoveryNeeded);
    SofteningTouchesOneUpcoming(s, today, fatigue, recoveryNeeded);
    SharpeningTouchesOneUpcoming(a, today, form);
  }

  /**
   * A tired rider in good form: the only upcoming session is a VO2max session, rule 1 turns it
   * into an endurance ride and rule 2 turns that ride back into VO2max intervals.
   */
  lemma SofteningUndoneBySharpening(x: Session, today: int)
    requires Upcoming(x, today) && x.kind == Vo2max
    ensures Reshaped([x], today, 80, false, 25) == [MakeVo2(MakeEndurance(x))]
    ensures Reshaped([x], today, 80, false, 25)[0].kind == x.kind
  {
    var a := Softened([x], today, 80, false);
    assert a == [MakeEndurance(x)];
    assert Matches(a[0], today, EasyKinds);
  }

  // ----- Weekly rest -----

  /** The ISO week number of a session's date; the year plays no part. */
  function WeekOf(x: Session): (w: int)
    ensures 1 <= w <= 53
  {
    IsoWeek.IsoWeekNumber(x.date)
  }

  /** The weeks of `s` in order of first occurrence: the key order of the source's `Map`. */
  function WeekKeys(s: seq<Session>, week: Session -> int): (r: seq<int>)
    ensures |r| <= |s|
  {
    if |s| == 0 then []
    else
      var keys := WeekKeys(s[..|s| - 1], week);
      if week(s[|s| - 1]) in keys then keys else keys + [week(s[|s| - 1])]
  }

  /** The sessions of week `w`, in the order of `s`. */
  function Members(s: seq<Session>, week: Session -> int, w: int): (r: seq<Session>)
    ensures |r| <= |s|
  {
    if |s| == 0 then []
    else Members(s[..|s| - 1], week, w) + (if week(s[|s| - 1]) == w then [s[|s| - 1]] else [])
  }

  /** The keys are the weeks that occur, each once. */
  lemma {:induction false} WeekKeysExact(s: seq<Session>, week: Session -> int)
    ensures forall w :: w in WeekKeys(s, week) <==> exists i :: 0 <= i < |s| && week(s[i]) == w
    ensures forall i, j :: 0 <= i < j < |WeekKeys(s, week)| ==> WeekKeys(s, week)[i] != WeekKeys(s, week)[j]
  {
    if |s| > 0 {
      var n := |s| - 1;
      WeekKeysExact(s[..n], week);
      forall w | (exists i :: 0 <= i < |s| && week(s[i]) == w)
        ensures w in WeekKeys(s, week)
      {
        var i :| 0 <= i < |s| && week(s[i]) == w;
        if i < n {
          assert week(s[..n][i]) == w;
        }
      }
    }
  }

  /** A session belongs to the group of week `w` exactly when it is in `s` and falls in week `w`. */
  lemma {:induction false} MembersExact(s: seq<Session>, week: Session -> int, w: int)
    ensures forall x :: x in Members(s, week, w) <==> x in s && week(x) == w
  {
    if |s| > 0 {
      var n := |s| - 1;
      MembersExact(s[..n], week, w);
      assert s == s[..n] + [s[n]];
    }
  }

  /** The first member of a week's group is the first session of `s` in that week. */
  lemma {:induction false} FirstMember(s: seq<Session>, week: Session -> int, w: int) returns (i: nat)
    requires |Members(s, week, w)| > 0
    ensures i < |s| && s[i] == Members(s, week, w)[0] && week(s[i]) == w
    ensures forall j :: 0 <= j < i ==> week(s[j]) != w
  {
    var n := |s| - 1;
    var before := Members(s[..n], week, w);
    if |before| > 0 {
      i := FirstMember(s[..n], week, w);
      assert Members(s, week, w)[0] == before[0];
      forall j | 0 <= j < i
        ensures week(s[j]) != w
      {
        assert s[j] == s[..n][j];
      }
    } else {
      i := n;
      MembersExact(s[..n], week, w);
      forall j | 0 <= j < n
        ensures week(s[j]) != w
      {
        assert s[j] == s[..n][j] && s[..n][j] in s[..n];
      }
    }
  }

  predicate KeysHaveMembersFact(s: seq<Session>, week: Session -> int) {
    forall w :: w in WeekKeys(s, week) ==> |Members(s, week, w)| > 0
  }

  /** Every week that occurs has a non-empty group. */
  lemma KeysHaveMembers(s: seq<Session>, week: Session -> int)
    ensures KeysHaveMembersFact(s, week)
  {
    WeekKeysExact(s, week);
    forall w | w in WeekKeys(s, week)
      ensures |Members(s, week, w)| > 0
    {
      var i :| 0 <= i < |s| && week(s[i]) == w;
      MembersExact(s, week, w);
      assert s[i] in Members(s, week, w);
    }
  }

  /** `weekSessions.some(s => s.type === 'rest')`. */
  predicate HasRest(g: seq<Session>) {
    exists i :: 0 <= i < |g| && g[i].kind == Rest
  }

  /** The rest day inserted after session `x`: the next calendar day, the same time of day. */
  function RestAfter(x: Session, id: string): (r: Session)
    ensures r.kind == Rest && r.date == x.date + DayMs && r.duration == 0 && r.intensity == 1 && !r.completed
  {
    Session(id, x.date + DayMs, Rest, 0, 1, RestDescription, false, None)
  }

  /** The rest days for the weeks `keys`, in order; ids are drawn in the order the rests are made. */
  function RestsFor(s: seq<Session>, week: Session -> int, keys: seq<int>, newId: int -> string): (r: seq<Session>)
    requires forall w :: w in keys ==> |Members(s, week, w)| > 0
    ensures |r| <= |keys|
  {
    if |keys| == 0 then []
    else
      var before := RestsFor(s, week, keys[..|keys| - 1], newId);
      var group := Members(s, week, keys[|keys| - 1]);
      before + (if HasRest(group) then [] else [RestAfter(group[0], newId(|before|))])
  }

  /** The weeks among `keys` whose group has no rest day, in the order of `keys`. */
  function Restless(s: seq<Session>, week: Session -> int, keys: seq<int>): (r: seq<int>)
    ensures forall w :: w in r <==> w in keys && !HasRest(Members(s, week, w))
  {
    if |keys| == 0 then []
    else
      var w := keys[|keys| - 1];
      Restless(s, week, keys[..|keys| - 1]) + (if HasRest(Members(s, week, w)) then [] else [w])
  }

  predicate Distinct(k: seq<int>) {
    forall i, j :: 0 <= i < j < |k| ==> k[i] != k[j]
  }

  /** Appending a week not yet listed keeps the list free of repeats. */
  lemma AppendDistinct(k: seq<int>, w: int)
    requires Distinct(k) && w !in k
    ensures Distinct(k + [w])
  {
    var r := k + [w];
    forall i, j | 0 <= i < j < |r|
      ensures r[i] != r[j]
    {
      assert r[i] == k[i];
      if j == |k| {
        assert k[i] in k;
      } else {
        assert r[j] == k[j];
      }
    }
  }

  /** Restless weeks of distinct keys are distinct. */
  lemma {:induction false} RestlessDistinct(s: seq<Session>, week: Session -> int, keys: seq<int>)
    requires Distinct(keys)
    ensures Distinct(Restless(s, week, keys))
  {
    if |keys| > 0 {
      var n := |keys| - 1;
      var prefix := keys[..n];
      assert Distinct(prefix);
      RestlessDistinct(s, week, prefix);
      assert keys[n] !in prefix by {
        forall i | 0 <= i < n
          ensures prefix[i] != keys[n]
        {
        }
      }
      var before := Restless(s, week, prefix);
      if !HasRest(Members(s, week, keys[n])) {
        assert keys[n] !in before;
        AppendDistinct(before, keys[n]);
      }
    }
  }

  /** Rest `j` of `r` is the rest after the first session of week `k[j]`, with the `j`-th new identifier. */
  predicate RestsMatch(s: seq<Session>, week: Session -> int, r: seq<Session>, k: seq<int>, newId: int -> string) {
    && |r| == |k|
    && forall j :: 0 <= j < |k| ==>
      |Members(s, week, k[j])| > 0 && r[j] == RestAfter(Members(s, week, k[j])[0], newId(j))
  }

  lemma AppendMatch(s: seq<Session>, week: Session -> int, r: seq<Session>, k: seq<int>, w: int, newId: int -> string)
    requires RestsMatch(s, week, r, k, newId) && |Members(s, week, w)| > 0
    ensures RestsMatch(s, week, r + [RestAfter(Members(s, week, w)[0], newId(|r|))], k + [w], newId)
  {
    var r2, k2 := r + [RestAfter(Members(s, week, w)[0], newId(|r|))], k + [w];
    forall j | 0 <= j < |k2|
      ensures |Members(s, week, k2[j])| > 0 && r2[j] == RestAfter(Members(s, week, k2[j])[0], newId(j))
    {
      if j < |k| {
        assert r2[j] == r[j] && k2[j] == k[j];
      }
    }
  }

  /**
   * The rests are exactly one per restless week, in the order of the weeks: rest `j` is dated the day
   * after the first session of the `j`-th restless week and carries the `j`-th new identifier.
   */
  lemma {:induction false} RestsForExact(s: seq<Session>, week: Session -> int, keys: seq<int>, newId: int -> string)
    requires forall w :: w in keys ==> |Members(s, week, w)| > 0
    ensures RestsMatch(s, week, RestsFor(s, week, keys, newId), Restless(s, week, keys), newId)
  {
    if |keys| > 0 {
      var n := |keys| - 1;
      var prefix := keys[..n];
      assert forall w :: w in prefix ==> w in keys;
      RestsForExact(s, week, prefix, newId);
      assert keys[n] in keys;
      var group := Members(s, week, keys[n]);
      var before, kb := RestsFor(s, week, prefix, newId), Restless(s, week, prefix);
      assert RestsFor(s, week, keys, newId) == before + (if HasRest(group) then [] else [RestAfter(group[0], newId(|before|))]);
      assert Restless(s, week, keys) == kb + (if HasRest(group) then [] else [keys[n]]);
      if !HasRest(group) {
        AppendMatch(s, week, before, kb, keys[n], newId);
      } else {
        assert RestsFor(s, week, keys, newId) == before && Restless(s, week, keys) == kb;
      }
    }
  }

  /** `ensureWeeklyRest`: the sessions it appends to `s`, grouping them by ISO week number. */
  function WeeklyRests(s: seq<Session>, newId: int -> string): seq<Session> {
    KeysHaveMembers(s, WeekOf);
    RestsFor(s, WeekOf, WeekKeys(s, WeekOf), newId)
  }

  /**
   * Every appended session is a rest day of zero minutes dated one day after the first session of
   * some week that had no rest day.
   */
  lemma {:induction false} RestsAreRestDays(s: seq<Session>, week: Session -> int, keys: seq<int>, newId: int -> string)
    requires forall w :: w in keys ==> |Members(s, week, w)| > 0
    ensures forall r :: r in RestsFor(s, week, keys, newId) ==>
      r.kind == Rest && r.duration == 0 && r.intensity == 1 && !r.completed &&
      exists w :: w in keys && !HasRest(Members(s, week, w)) && r.date == Members(s, week, w)[0].date + DayMs
  {
    if |keys| > 0 {
      var n := |keys| - 1;
      RestsAreRestDays(s, week, keys[..n], newId);
      assert forall w :: w in keys[..n] ==> w in keys;
      assert keys[n] in keys;
    }
  }

  /** Nothing is appended exactly when every week already has a rest day. */
  lemma {:induction false} NoRestsIffRested(s: seq<Session>, week: Session -> int, keys: seq<int>, newId: int -> string)
    requires forall w :: w in keys ==> |Members(s, week, w)| > 0
    ensures RestsFor(s, week, keys, newId) == [] <==> forall w :: w in keys ==> HasRest(Members(s, week, w))
  {
    if |keys| > 0 {
      var n := |keys| - 1;
      NoRestsIffRested(s, week, keys[..n], newId);
      assert keys == keys[..n] + [keys[n]];
      var before := RestsFor(s, week, keys[..n], newId);
      var group := Members(s, week, keys[n]);
      var all := RestsFor(s, week, keys, newId);
      assert all == before + (if HasRest(group) then [] else [RestAfter(group[0], newId(|before|))]);
      if all == [] {
        forall w | w in keys
          ensures HasRest(Members(s, week, w))
        {
          if w != keys[n] {
            assert w in keys[..n];
          }
        }
      } else if before == [] {
        assert !HasRest(group) && keys[n] in keys;
      } else {
        var w :| w in keys[..n] && !HasRest(Members(s, week, w));
        assert w in keys;
      }
    }
  }

  /** Every week without a rest day gets one, dated the day after the week's first session. */
  lemma {:induction false} RestlessWeeksGetRests(s: seq<Session>, week: Session -> int, keys: seq<int>, newId: int -> string)
    requires forall w :: w in keys ==> |Members(s, week, w)| > 0
    ensures forall w :: w in keys && !HasRest(Members(s, week, w)) ==>
      exists r :: r in RestsFor(s, week, keys, newId) && r.kind == Rest && r.date == Members(s, week, w)[0].date + DayMs
  {
    if |keys| > 0 {
      var n := |keys| - 1;
      RestlessWeeksGetRests(s, week, keys[..n], newId);
      assert keys == keys[..n] + [keys[n]];
      var before := RestsFor(s, week, keys[..n], newId);
      var all := RestsFor(s, week, keys, newId);
      forall w | w in keys && !HasRest(Members(s, week, w))
        ensures exists r :: r in all && r.kind == Rest && r.date == Members(s, week, w)[0].date + DayMs
      {
        if w in keys[..n] {
          var r :| r in before && r.kind == Rest && r.date == Members(s, week, w)[0].date + DayMs;
          assert r in all;
        } else {
          assert w == keys[n];
          assert all[|before|] == RestAfter(Members(s, week, w)[0], newId(|before|));
        }
      }
    }
  }

  /** A rest day for each week without one, and none when every week has one. */
  lemma RestsCoverRestlessWeeks(s: seq<Session>, week: Session -> int, keys: seq<int>, newId: int -> string)
    requires forall w :: w in keys ==> |Members(s, week, w)| > 0
    ensures RestsFor(s, week, keys, newId) == [] <==> forall w :: w in keys ==> HasRest(Members(s, week, w))
    ensures forall w :: w in keys && !HasRest(Members(s, week, w)) ==>
      exists r :: r in RestsFor(s, week, keys, newId) && r.kind == Rest && r.date == Members(s, week, w)[0].date + DayMs
  {
    NoRestsIffRested(s, week, keys, newId);
    RestlessWeeksGetRests(s, week, keys, newId);
  }

  /**
   * Exactly one rest day per week without one: the rests pair off, in order, with the restless weeks,
   * and for distinct week keys no restless week is listed twice.
   */
  lemma OneRestPerRestlessWeek(s: seq<Session>, week: Session -> int, keys: seq<int>, newId: int -> string)
    requires forall w :: w in keys ==> |Members(s, week, w)| > 0
    ensures RestsMatch(s, week, RestsFor(s, week, keys, newId), Restless(s, week, keys), newId)
    ensures Distinct(keys) ==> Distinct(Restless(s, week, keys))
  {
    RestsForExact(s, week, keys, newId);
    if Distinct(keys) {
      RestlessDistinct(s, week, keys);
    }
  }

  /** A plan whose weeks all hold a rest day gains nothing; otherwise every restless week gets one. */
  lemma WeeklyRestsWhenRested(s: seq<Session>, newId: int -> string)
    ensures WeeklyRests(s, newId) == [] <==> forall w :: w in WeekKeys(s, WeekOf) ==> HasRest(Members(s, WeekOf, w))
    ensures forall w :: w in WeekKeys(s, WeekOf) && !HasRest(Members(s, WeekOf, w)) ==>
      |Members(s, WeekOf, w)| > 0 &&
      exists r :: r in WeeklyRests(s, newId) && r.kind == Rest && r.date == Members(s, WeekOf, w)[0].date + DayMs
  {
    KeysHaveMembers(s, WeekOf);
    RestsCoverRestlessWeeks(s, WeekOf, WeekKeys(s, WeekOf), newId);
  }

  /**
   * `ensureWeeklyRest` appends exactly one rest per ISO week without one: rest `j` belongs to the
   * `j`-th restless week, and no restless week appears twice.
   */
  lemma WeeklyRestsExact(s: seq<Session>, newId: int -> string)
    ensures RestsMatch(s, WeekOf, WeeklyRests(s, newId), Restless(s, WeekOf, WeekKeys(s, WeekOf)), newId)
    ensures Distinct(Restless(s, WeekOf, WeekKeys(s, WeekOf)))
  {
    KeysHaveMembers(s, WeekOf);
    WeekKeysExact(s, WeekOf);
    assert Distinct(WeekKeys(s, WeekOf));
    OneRestPerRestlessWeek(s, WeekOf, WeekKeys(s, WeekOf), newId);
  }

  const SundayRide: Session := Session("ride", 3 * DayMs, Endurance, 90, 3, EnduranceAdaptedDescription, false, None)

  /**
   * The inserted rest can land outside the week it is meant for: a lone ride on Sunday 1970-01-04
   * (week 1) gets its rest day on Monday 1970-01-05, which is week 2.
   */
  lemma SundayRestLeavesItsWeek(newId: int -> string)
    ensures WeeklyRests([SundayRide], newId) == [RestAfter(SundayRide, newId(0))]
    ensures WeekOf(SundayRide) == 1 && WeekOf(RestAfter(SundayRide, newId(0))) == 2
  {
    IsoWeek.SundayExample();
    IsoWeek.FirstMondayExample();
    var s := [SundayRide];
    assert s[..0] == [];
    assert WeekKeys(s, WeekOf) == [1];
    assert Members(s, WeekOf, 1) == s;
    assert [1][..0] == [];
  }

  lemma NewWeekHasNoMembers(s: seq<Session>, week: Session -> int, w: int)
    requires w !in WeekKeys(s, week)
    ensures Members(s, week, w) == []
  {
    WeekKeysExact(s, week);
    MembersExact(s, week, w);
  }

  /** The grouping loop: a `Map` from week number to sessions, with its keys in insertion order. */
  method GroupByWeek(s: seq<Session>, week: Session -> int) returns (keys: seq<int>, weeks: map<int, seq<Session>>)
    ensures keys == WeekKeys(s, week)
    ensures forall w :: w in weeks ==> w in keys
    ensures forall w :: w in keys ==> w in weeks && weeks[w] == Members(s, week, w)
  {
    keys := [];
    weeks := map[];
    for i := 0 to |s|
      invariant keys == WeekKeys(s[..i], week)
      invariant forall w :: w in weeks ==> w in keys
      invariant forall w :: w in keys ==> w in weeks && weeks[w] == Members(s[..i], week, w)
    {
      var weekNum := week(s[i]);
      assert s[..i + 1][..i] == s[..i];
      forall w
        ensures Members(s[..i + 1], week, w) == Members(s[..i], week, w) + (if weekNum == w then [s[i]] else [])
      {
      }
      if weekNum !in weeks {
        NewWeekHasNoMembers(s[..i], week, weekNum);
        weeks := weeks[weekNum := []];
        keys := keys + [weekNum];
      }
      weeks := weeks[weekNum := weeks[weekNum] + [s[i]]];
    }
    assert s[..|s|] == s;
  }

  /** `ensureWeeklyRest`: appends a rest day for every ISO week of the list that has none. */
  method EnsureWeeklyRest(sessions: SessionList, newId: int -> string)
    modifies sessions
    ensures sessions.items == old(sessions.items) + WeeklyRests(old(sessions.items), newId)
  {
    KeysHaveMembers(sessions.items, WeekOf);
    AddMissingRests(sessions, WeekOf, newId);
  }

  /** The rests for the first `j + 1` weeks: those for the first `j`, then week `j`'s if it has none. */
  lemma RestsForStep(s: seq<Session>, week: Session -> int, keys: seq<int>, j: nat, newId: int -> string)
    requires j < |keys|
    requires forall w :: w in keys ==> |Members(s, week, w)| > 0
    ensures var before := RestsFor(s, week, keys[..j], newId);
      var group := Members(s, week, keys[j]);
      RestsFor(s, week, keys[..j + 1], newId)
        == before + (if HasRest(group) then [] else [RestAfter(group[0], newId(|before|))])
  {
    assert keys[..j + 1][..j] == keys[..j];
    assert keys[..j + 1][j] == keys[j];
  }

  /** The two passes of `ensureWeeklyRest` for a given week function: group, then push the rests. */
  method AddMissingRests(sessions: SessionList, week: Session -> int, newId: int -> string)
    modifies sessions
    ensures KeysHaveMembersFact(old(sessions.items), week)
    ensures sessions.items == old(sessions.items) + RestsFor(old(sessions.items), week, WeekKeys(old(sessions.items), week), newId)
  {
    var s := sessions.items;
    var keys, weeks := GroupByWeek(s, week);
    KeysHaveMembers(s, week);
    var calls := 0;
    for j := 0 to |keys|
      invariant sessions.items == s + RestsFor(s, week, keys[..j], newId)
      invariant calls == |RestsFor(s, week, keys[..j], newId)|
    {
      RestsForStep(s, week, keys, j, newId);
      var key := keys[j];
      assert key in keys;
      assert key in weeks;
      var weekSessions := weeks[key];
      assert |weekSessions| > 0;
      if !HasRest(weekSessions) {
        sessions.Push(RestAfter(weekSessions[0], newId(calls)));
        calls := calls + 1;
      }
    }
    assert keys[..|keys|] == keys;
  }

  /** The sessions after adaptation, as a function of the sessions before. */
  function Adapted(s: seq<Session>, today: int, fatigue: int, recoveryNeeded: bool, form: int, newId: int -> string)
    : seq<Session>
  {
    if !HasUpcoming(s, today) then s
    else
      var r := Reshaped(s, today, fatigue, recoveryNeeded, form);
      r + WeeklyRests(r, newId)
  }

  /**
   * What adaptation keeps: nothing at all without an upcoming session; otherwise the sessions
   * keep their places, the past and completed ones unchanged, and everything appended is a rest day.
   */
  lemma AdaptedKeepsHistory(s: seq<Session>, today: int, fatigue: int, recoveryNeeded: bool, form: int, newId: int -> string)
    ensures !HasUpcoming(s, today) ==> Adapted(s, today, fatigue, recoveryNeeded, form, newId) == s
    ensures var r := Adapted(s, today, fatigue, recoveryNeeded, form, newId);
      |s| <= |r| &&
      (forall j :: 0 <= j < |s| && !Upcoming(s[j], today) ==> r[j] == s[j]) &&
      (forall j :: |s| <= j < |r| ==> r[j].kind == Rest && !r[j].completed)
  {
    if HasUpcoming(s, today) {
      var a := Reshaped(s, today, fatigue, recoveryNeeded, form);
      PastSessionsKept(s, today, fatigue, recoveryNeeded, form);
      KeysHaveMembers(a, WeekOf);
      RestsAreRestDays(a, WeekOf, WeekKeys(a, WeekOf), newId);
      var r := Adapted(s, today, fatigue, recoveryNeeded, form, newId);
      forall j | |s| <= j < |r|
        ensures r[j].kind == Rest && !r[j].completed
      {
        assert r[j] in WeeklyRests(a, newId);
      }
    }
  }

  /**
   * A neutral analysis (fatigue at most 70, no recovery flag, form at most 20) leaves every
   * existing session as it was; only rest days can be appended.
   */
  lemma NeutralAnalysisKeepsSessions(s: seq<Session>, today: int, fatigue: int, form: int, newId: int -> string)
    requires fatigue <= 70 && form <= 20
    ensures Reshaped(s, today, fatigue, false, form) == s
    ensures Adapted(s, today, fatigue, false, form, newId)[..|s|] == s
  {
  }

  /**
   * `adaptTrainingPlan`. The copy `{ ...plan }` shares the session array with `plan`, so the edits
   * reach the caller's plan too; without an upcoming session nothing is changed and the copy equals
   * the plan.
   */
  method AdaptTrainingPlan(plan: TrainingPlan, analysis: Analysis.TrainingAnalysis, today: int, now: int, newId: int -> string)
    returns (updated: TrainingPlan)
    modifies plan.sessions
    ensures var s := old(plan.sessions.items);
      plan.sessions.items == Adapted(s, today, analysis.fatigue, analysis.patterns.recoveryNeeded, analysis.form, newId)
    ensures updated == if HasUpcoming(old(plan.sessions.items), today) then plan.(updatedAt := now) else plan
  {
    updated := plan;
    if !HasUpcoming(plan.sessions.items, today) {
      return;
    }
    var fatigue, form, patterns := analysis.fatigue, analysis.form, analysis.patterns;
    if fatigue > 70 || patterns.recoveryNeeded {
      var nextHard := FirstMatch(updated.sessions.items, today, HardKinds);
      if nextHard.Some? {
        updated.sessions.Replace(nextHard.value, MakeEndurance(updated.sessions.items[nextHard.value]));
      }
    }
    if form > 20 {
      var nextEasy := FirstMatch(updated.sessions.items, today, EasyKinds);
      if nextEasy.Some? {
        updated.sessions.Replace(nextEasy.value, MakeVo2(updated.sessions.items[nextEasy.value]));
      }
    }
    EnsureWeeklyRest(updated.sessions, newId);
    updated := updated.(updatedAt := now);
  }
}
