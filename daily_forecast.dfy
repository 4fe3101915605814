/**
 * The five-day list: one sample per calendar day, first sample of the day
 * wins, at most five days. The calendar day of a timestamp (`toDateString` in
 * the local time zone) is the parameter `dayOf`.
 */
module DailyForecast {
  import opened Wrappers
  import opened Payload
  import opened Conditions
  import opened Seqs
  import CurrentWeather

  /** This panel's own copy of `getWeatherIcon`. */
  function IconFor(weatherId: int): (c: Category)
    ensures Band(c, weatherId)
  {
    if weatherId >= 200 && weatherId < 300 then Lightning
    else if weatherId >= 300 && weatherId < 400 then Drizzle
    else if weatherId >= 500 && weatherId < 600 then Rain
    else if weatherId >= 600 && weatherId < 700 then Snow
    else if weatherId >= 700 && weatherId < 800 then Fog
    else if weatherId == 800 then Sun
    else Cloud
  }

  lemma IconMatchesCurrent(weatherId: int)
    ensures IconFor(weatherId) == CurrentWeather.IconFor(weatherId)
  {
    BandDetermines(weatherId, IconFor(weatherId), CurrentWeather.IconFor(weatherId));
  }

  /**
   * The entries a left-to-right scan keeps when the days in `seen` are
   * already taken: an entry is kept when its day is new.
   */
  function KeepFirst(list: seq<Entry>, dayOf: int -> string, seen: set<string>): seq<Entry>
    decreases |list|
  {
    if list == [] then []
    else if dayOf(list[0].dt) in seen then KeepFirst(list[1..], dayOf, seen)
    else [list[0]] + KeepFirst(list[1..], dayOf, seen + {dayOf(list[0].dt)})
  }

  /** The days that occur in `list`. */
  ghost function DaysOf(list: seq<Entry>, dayOf: int -> string): set<string>
  {
    set i | 0 <= i < |list| :: dayOf(list[i].dt)
  }

  /** `list[j]` is the first entry of its day, and that day is not already taken. */
  ghost predicate FirstOfDay(list: seq<Entry>, dayOf: int -> string, seen: set<string>, j: int)
    requires 0 <= j < |list|
  {
    && dayOf(list[j].dt) !in seen
    && forall i :: 0 <= i < j ==> dayOf(list[i].dt) != dayOf(list[j].dt)
  }

  /** The kept entries cover exactly the days of `list` not already taken. */
  lemma {:induction false} KeepFirstDays(list: seq<Entry>, dayOf: int -> string, seen: set<string>)
    ensures DaysOf(KeepFirst(list, dayOf, seen), dayOf) == DaysOf(list, dayOf) - seen
    decreases |list|
  {
    if list != [] {
      var k := dayOf(list[0].dt);
      var seen' := if k in seen then seen else seen + {k};
      KeepFirstDays(list[1..], dayOf, seen');
      assert DaysOf(list, dayOf) == {k} + DaysOf(list[1..], dayOf) by {
        forall d | d in DaysOf(list, dayOf) ensures d in {k} + DaysOf(list[1..], dayOf) {
          var i :| 0 <= i < |list| && dayOf(list[i].dt) == d;
          if i > 0 { assert list[1..][i - 1] == list[i]; }
        }
        forall d | d in DaysOf(list[1..], dayOf) ensures d in DaysOf(list, dayOf) {
          var i :| 0 <= i < |list[1..]| && dayOf(list[1..][i].dt) == d;
          assert list[i + 1] == list[1..][i];
        }
        assert k == dayOf(list[0].dt);
      }
      if k !in seen {
        var r := KeepFirst(list[1..], dayOf, seen');
        assert DaysOf([list[0]] + r, dayOf) == {k} + DaysOf(r, dayOf) by {
          var r' := [list[0]] + r;
          forall d | d in DaysOf(r', dayOf) ensures d in {k} + DaysOf(r, dayOf) {
            var i :| 0 <= i < |r'| && dayOf(r'[i].dt) == d;
            if i > 0 { assert r'[i] == r[i - 1]; }
          }
          forall d | d in DaysOf(r, dayOf) ensures d in DaysOf(r', dayOf) {
            var i :| 0 <= i < |r| && dayOf(r[i].dt) == d;
            assert r'[i + 1] == r[i];
          }
          assert r'[0] == list[0];
        }
      }
    }
  }

  /** No two entries of `r` share a day. */
  ghost predicate DistinctDays(r: seq<Entry>, dayOf: int -> string)
  {
    forall a, b :: 0 <= a < b < |r| ==> dayOf(r[a].dt) != dayOf(r[b].dt)
  }

  /** No entry of `r` has a day in `seen`. */
  ghost predicate AvoidsDays(r: seq<Entry>, dayOf: int -> string, seen: set<string>)
  {
    forall a :: 0 <= a < |r| ==> dayOf(r[a].dt) !in seen
  }

  /** No two kept entries share a day, and none has a day already taken. */
  lemma {:induction false} KeepFirstDistinct(list: seq<Entry>, dayOf: int -> string, seen: set<string>)
    ensures DistinctDays(KeepFirst(list, dayOf, seen), dayOf)
    ensures AvoidsDays(KeepFirst(list, dayOf, seen), dayOf, seen)
    decreases |list|
  {
    if list != [] {
      var k := dayOf(list[0].dt);
      if k in seen {
        KeepFirstDistinct(list[1..], dayOf, seen);
      } else {
        KeepFirstDistinct(list[1..], dayOf, seen + {k});
        var rest := KeepFirst(list[1..], dayOf, seen + {k});
        var r := [list[0]] + rest;
        assert KeepFirst(list, dayOf, seen) == r;
        forall a, b | 0 <= a < b < |r| ensures dayOf(r[a].dt) != dayOf(r[b].dt) {
          assert r[b] == rest[b - 1];
          assert dayOf(rest[b - 1].dt) !in seen + {k};
          if a > 0 { assert r[a] == rest[a - 1]; }
        }
        forall a | 0 <= a < |r| ensures dayOf(r[a].dt) !in seen {
          if a > 0 { assert r[a] == rest[a - 1]; assert dayOf(rest[a - 1].dt) !in seen + {k}; }
        }
      }
    }
  }

  /** The kept entries appear in `list` in the same order. */
  lemma {:induction false} KeepFirstSubsequence(list: seq<Entry>, dayOf: int -> string, seen: set<string>)
    ensures IsSubsequence(KeepFirst(list, dayOf, seen), list)
    decreases |list|
  {
    if list != [] {
      var k := dayOf(list[0].dt);
      if k in seen {
        KeepFirstSubsequence(list[1..], dayOf, seen);
      } else {
        KeepFirstSubsequence(list[1..], dayOf, seen + {k});
        var r := KeepFirst(list, dayOf, seen);
        assert r[0] == list[0] && r[1..] == KeepFirst(list[1..], dayOf, seen + {k});
      }
    }
  }

  /** `x` is, in `list`, the first entry of a day not already taken. */
  ghost predicate FirstEntryOf(list: seq<Entry>, dayOf: int -> string, seen: set<string>, x: Entry)
  {
    exists j :: 0 <= j < |list| && list[j] == x && FirstOfDay(list, dayOf, seen, j)
  }

  /** Every kept entry is the first entry of its day in `list`. */
  lemma {:induction false} KeptAreFirst(list: seq<Entry>, dayOf: int -> string, seen: set<string>)
    ensures forall a :: 0 <= a < |KeepFirst(list, dayOf, seen)| ==>
      FirstEntryOf(list, dayOf, seen, KeepFirst(list, dayOf, seen)[a])
    decreases |list|
  {
    if list != [] {
      var k := dayOf(list[0].dt);
      var seen' := if k in seen then seen else seen + {k};
      KeptAreFirst(list[1..], dayOf, seen');
      var rest := KeepFirst(list[1..], dayOf, seen');
      var r := KeepFirst(list, dayOf, seen);
      assert r == if k in seen then rest else [list[0]] + rest;
      forall a | 0 <= a < |r| ensures FirstEntryOf(list, dayOf, seen, r[a]) {
        if k !in seen && a == 0 {
          assert list[0] == r[0] && FirstOfDay(list, dayOf, seen, 0);
        } else {
          var a' := if k in seen then a else a - 1;
          assert r[a] == rest[a'];
          assert FirstEntryOf(list[1..], dayOf, seen', rest[a']);
          var j' :| 0 <= j' < |list[1..]| && list[1..][j'] == rest[a'] && FirstOfDay(list[1..], dayOf, seen', j');
          assert list[j' + 1] == list[1..][j'];
          forall i | 0 <= i < j' + 1 ensures dayOf(list[i].dt) != dayOf(list[j' + 1].dt) {
            if i > 0 { assert list[i] == list[1..][i - 1]; }
          }
          assert FirstOfDay(list, dayOf, seen, j' + 1);
        }
      }
    }
  }

  /** Every first entry of a day in `list` is kept. */
  lemma {:induction false} FirstsAreKept(list: seq<Entry>, dayOf: int -> string, seen: set<string>)
    ensures forall j :: 0 <= j < |list| && FirstOfDay(list, dayOf, seen, j) ==>
      list[j] in KeepFirst(list, dayOf, seen)
    decreases |list|
  {
    if list != [] {
      var k := dayOf(list[0].dt);
      var seen' := if k in seen then seen else seen + {k};
      FirstsAreKept(list[1..], dayOf, seen');
      forall j | 0 <= j < |list| && FirstOfDay(list, dayOf, seen, j)
        ensures list[j] in KeepFirst(list, dayOf, seen)
      {
        if j > 0 {
          assert list[j] == list[1..][j - 1];
          forall i | 0 <= i < j - 1 ensures dayOf(list[1..][i].dt) != dayOf(list[1..][j - 1].dt) {
            assert list[1..][i] == list[i + 1];
          }
          assert dayOf(list[0].dt) != dayOf(list[j].dt);
          assert FirstOfDay(list[1..], dayOf, seen', j - 1);
        }
      }
    }
  }

  /** A non-empty list keeps its first entry, in first position. */
  lemma KeepFirstStartsWithHead(list: seq<Entry>, dayOf: int -> string)
    requires list != []
    ensures var r := KeepFirst(list, dayOf, {}); r != [] && r[0] == list[0]
  {
  }

  /**
   * The grouping loop: a `days` record of the days met so far, and the
   * entries pushed onto `dailyData` when their day is new.
   */
  method GroupByDay(list: seq<Entry>, dayOf: int -> string) returns (dailyData: seq<Entry>)
    ensures dailyData == KeepFirst(list, dayOf, {})
  {
    dailyData := [];
    var days: map<string, bool> := map[];
    var i := 0;
    assert list[0..] == list && days.Keys == {};
    while i < |list|
      invariant 0 <= i <= |list|
      invariant forall d :: d in days ==> days[d]
      invariant dailyData + KeepFirst(list[i..], dayOf, days.Keys) == KeepFirst(list, dayOf, {})
    {
      var day := dayOf(list[i].dt);
      assert list[i..][0] == list[i] && list[i..][1..] == list[i + 1..];
      ghost var rest := KeepFirst(list[i..], dayOf, days.Keys);
      if !(day in days && days[day]) {
        assert rest == [list[i]] + KeepFirst(list[i + 1..], dayOf, days.Keys + {day});
        assert dailyData + rest == (dailyData + [list[i]]) + KeepFirst(list[i + 1..], dayOf, days.Keys + {day});
        ghost var keys := days.Keys;
        days := days[day := true];
        assert days.Keys == keys + {day};
        dailyData := dailyData + [list[i]];
      } else {
        assert rest == KeepFirst(list[i + 1..], dayOf, days.Keys);
      }
      i := i + 1;
    }
  }

  /** One row of the list: its key `dt` and its icon. */
  datatype Row = Row(dt: int, icon: Category)

  /** Nothing without data or a list; otherwise the rows of the first five days. */
  method Render(data: Option<Forecast>, dayOf: int -> string) returns (rows: Option<seq<Row>>)
    requires data.Some? && data.value.list.Some? ==> AllHaveCondition(data.value.list.value)
    ensures rows.None? <==> data.None? || data.value.list.None?
    ensures rows.Some? ==>
      var kept := KeepFirst(data.value.list.value, dayOf, {});
      && |rows.value| == Min(5, |kept|)
      && forall i :: 0 <= i < |rows.value| ==>
           HasCondition(kept[i]) && rows.value[i] == Row(kept[i].dt, IconFor(kept[i].conditions[0].id))
  {
    if data.None? || data.value.list.None? {
      return None;
    }
    var list := data.value.list.value;
    var dailyData := GroupByDay(list, dayOf);
    KeepFirstSubsequence(list, dayOf, {});
    SubsequenceMembers(dailyData, list);
    var fiveDay := Take(dailyData, 5);
    assert forall i :: 0 <= i < |fiveDay| ==> HasCondition(fiveDay[i]) by {
      forall i | 0 <= i < |fiveDay| ensures HasCondition(fiveDay[i]) {
        assert fiveDay[i] in dailyData;
        var j :| 0 <= j < |list| && list[j] == fiveDay[i];
      }
    }
    rows := Some(seq(|fiveDay|, i requires 0 <= i < |fiveDay| =>
      Row(fiveDay[i].dt, IconFor(fiveDay[i].conditions[0].id))));
  }
}
