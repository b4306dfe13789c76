/**
 * The daily per-model usage counter kept for SimpleTex models: a date and a
 * count per model, valid for that date only. "Today" is a parameter; the
 * file the counter is saved in is not modelled.
 */
module Usage {
  import SimpleTex

  /** The saved counter: the day it belongs to and the calls per model on that day. */
  datatype UsageState = UsageState(date: string, counts: map<string, nat>)

  /** What a missing or unreadable usage file loads as. */
  const Fresh: UsageState := UsageState("", map[])

  /** The calls of `model` counted for `today`: none when the counter belongs to another day. */
  function UsageToday(s: UsageState, today: string, model: string): (n: nat)
    ensures s.date != today ==> n == 0
    ensures s.date == today && model in s.counts ==> n == s.counts[model]
    ensures model !in s.counts ==> n == 0
  {
    if s.date != today then 0
    else if model in s.counts then s.counts[model]
    else 0
  }

  /**
   * The counter after one more call of `model` on `today`: it belongs to
   * `today`, `model` has one more call, and no other model's count for
   * today changes; a counter from another day starts over.
   */
  function Increment(s: UsageState, today: string, model: string): (t: UsageState)
    ensures t.date == today
    ensures UsageToday(t, today, model) == UsageToday(s, today, model) + 1
    ensures forall m :: m != model ==> UsageToday(t, today, m) == UsageToday(s, today, m)
    ensures s.date == today ==> t.counts.Keys == s.counts.Keys + {model}
    ensures s.date == today ==> forall m :: m in s.counts && m != model ==> t.counts[m] == s.counts[m]
    ensures s.date != today ==> t.counts == map[model := 1]
  {
    var counts := if s.date != today then map[] else s.counts;
    var c := if model in counts then counts[model] else 0;
    UsageState(today, counts[model := c + 1])
  }

  /** Reading on a day other than the saved one gives zero, for every model. */
  lemma StaleCounterReadsZero(s: UsageState, today: string)
    requires s.date != today
    ensures forall m :: UsageToday(s, today, m) == 0
  {
  }

  /** The counter after `n` calls of `model` on `today`. */
  function Repeated(s: UsageState, today: string, model: string, n: nat): UsageState {
    if n == 0 then s else Increment(Repeated(s, today, model, n - 1), today, model)
  }

  /** `n` calls of one model on one day add exactly `n` to its count for that day. */
  lemma {:induction false} RepeatedIncrement(s: UsageState, today: string, model: string, n: nat)
    ensures UsageToday(Repeated(s, today, model, n), today, model) == UsageToday(s, today, model) + n
    ensures n > 0 ==> Repeated(s, today, model, n).date == today
  {
    if n > 0 {
      RepeatedIncrement(s, today, model, n - 1);
    }
  }

  /** The usage file, held in memory. */
  class UsageLog {
    var date: string
    var counts: map<string, nat>

    function State(): UsageState
      reads this
    {
      UsageState(date, counts)
    }

    /** An empty log, as loaded when there is no usage file. */
    constructor ()
      ensures State() == Fresh
    {
      date := "";
      counts := map[];
    }

    /** `get_model_usage_today`. */
    method CountToday(today: string, model: string) returns (n: nat)
      ensures n == UsageToday(State(), today, model)
    {
      if date != today {
        return 0;
      }
      n := if model in counts then counts[model] else 0;
    }

    /** `increment_model_usage`: clear a stale log, then add one call of `model`. */
    method Record(today: string, model: string)
      modifies this
      ensures State() == Increment(old(State()), today, model)
    {
      if date != today {
        counts := map[];
      }
      var count := if model in counts then counts[model] else 0;
      counts := counts[model := count + 1];
      date := today;
    }
  }

  /** The usage of every SimpleTex model today, as shown in the settings. */
  method UsageByModel(log: UsageLog, today: string) returns (usage: map<string, nat>)
    ensures usage.Keys == set i | 0 <= i < |SimpleTex.Models| :: SimpleTex.Models[i].id
    ensures forall i :: 0 <= i < |SimpleTex.Models| ==>
      usage[SimpleTex.Models[i].id] == UsageToday(log.State(), today, SimpleTex.Models[i].id)
  {
    usage := map[];
    for i := 0 to |SimpleTex.Models|
      invariant usage.Keys == set j | 0 <= j < i :: SimpleTex.Models[j].id
      invariant forall j :: 0 <= j < i ==>
        usage[SimpleTex.Models[j].id] == UsageToday(log.State(), today, SimpleTex.Models[j].id)
    {
      var id := SimpleTex.Models[i].id;
      var n := log.CountToday(today, id);
      usage := usage[id := n];
    }
  }
}
