/** The adapter that drives an application through get, set and unset commands
    (anvil_events/reconciliation/command_config_adapter.py).

    The application's configuration is a map; a command that fails changes nothing. Which
    command fails, if any, is a parameter. Reading a value strips trailing line ends. */
module CommandConfig {
  import opened Basics

  type Config = map<string, string>

  /** A key of the plan with its rendered value, or with none to unset it. */
  datatype Setting = Setting(key: string, value: Option<string>)

  type Settings = seq<Setting>

  predicate DistinctKeys(settings: Settings) {
    forall i, j :: 0 <= i < j < |settings| ==> settings[i].key != settings[j].key
  }

  predicate LineEnd(c: char) {
    c == '\r' || c == '\n'
  }

  function Strip(s: string): string {
    if s != [] && LineEnd(s[|s| - 1]) then Strip(s[..|s| - 1]) else s
  }

  /** The text does not end in a carriage return or a line feed. */
  predicate NoEnd(s: string) {
    s == "" || (s[|s| - 1] != '\r' && s[|s| - 1] != '\n')
  }

  /** Reading cuts all line ends off the end of a value and nothing else. */
  lemma {:induction false} StripExactly(s: string)
    ensures NoEnd(Strip(s)) && Strip(s) <= s && (forall i :: |Strip(s)| <= i < |s| ==> s[i] == '\r' || s[i] == '\n')
    ensures Strip(s) == s <==> NoEnd(s)
  {
    if s != "" && LineEnd(s[|s| - 1]) {
      StripExactly(s[..|s| - 1]);
    }
  }

  predicate OneLine(s: string) {
    forall i :: 0 <= i < |s| ==> !LineEnd(s[i])
  }

  /** The plan check refuses line ends in values and repeated keys cannot occur in an object. */
  predicate Sane(plan: Settings) {
    && DistinctKeys(plan)
    && forall i :: 0 <= i < |plan| && plan[i].value.Some? ==> OneLine(plan[i].value.value)
  }

  function Value(config: Config, key: string): Option<string> {
    if key in config then Some(config[key]) else None
  }

  /** What a memory of values, keyed by distinct keys, has for a key. */
  function Recall(memory: Settings, key: string): Option<Option<string>> {
    if memory == [] then None
    else if memory[0].key == key then Some(memory[0].value)
    else Recall(memory[1..], key)
  }

  lemma {:induction false} RecallAt(memory: Settings, i: nat)
    requires DistinctKeys(memory) && i < |memory|
    ensures Recall(memory, memory[i].key) == Some(memory[i].value)
  {
    if i == 0 {
    } else {
      RecallAt(memory[1..], i - 1);
    }
  }

  /** What `_get` answers. */
  function Read(config: Config, key: string): Option<string> {
    if key in config then Some(Strip(config[key])) else None
  }

  function Write(config: Config, key: string, value: Option<string>): Config {
    match value
    case None => config - {key}
    case Some(v) => config[key := v]
  }

  function Previous(config: Config, plan: Settings): Settings {
    seq(|plan|, i requires 0 <= i < |plan| => Setting(plan[i].key, Read(config, plan[i].key)))
  }

  ghost predicate Has(settings: Settings, key: string) {
    exists i :: 0 <= i < |settings| && settings[i].key == key
  }

  /** `after` holds the settings and agrees with `before` on all other keys. */
  ghost predicate Holds(before: Config, after: Config, settings: Settings) {
    && (forall i :: 0 <= i < |settings| ==> Value(after, settings[i].key) == settings[i].value)
    && (forall key :: !Has(settings, key) ==> Value(after, key) == Value(before, key))
  }

  lemma HoldsIsUnique(before: Config, one: Config, other: Config, settings: Settings)
    requires Holds(before, one, settings) && Holds(before, other, settings)
    ensures one == other
  {
    forall key
      ensures Value(one, key) == Value(other, key)
    {
      if Has(settings, key) {
        var i :| 0 <= i < |settings| && settings[i].key == key;
      }
    }
    forall key
      ensures (key in one <==> key in other) && (key in one ==> one[key] == other[key])
    {
      assert Value(one, key) == Value(other, key);
    }
  }

  /** An apply that got `done` writes far and undid the last `undone` of them from its memory. */
  ghost predicate Undone(before: Config, after: Config, plan: Settings, memory: Settings, done: nat, undone: nat)
    requires undone <= done <= |plan|
  {
    && (forall i :: 0 <= i < done - undone ==> Value(after, plan[i].key) == plan[i].value)
    && (forall i :: done - undone <= i < done ==> Recall(memory, plan[i].key) == Some(Value(after, plan[i].key)))
    && (forall i :: done <= i < |plan| ==> Value(after, plan[i].key) == Value(before, plan[i].key))
    && (forall key :: !Has(plan, key) ==> Value(after, key) == Value(before, key))
  }

  /** Whatever the memory and however far apply and undo got: the configuration is as before if and only
      if each write that stands wrote what was there, and each undo wrote back what was there. */
  lemma UndoRestoresExactly(before: Config, after: Config, plan: Settings, memory: Settings, done: nat, undone: nat)
    requires undone <= done <= |plan| && Undone(before, after, plan, memory, done, undone)
    ensures after == before <==>
      && (forall i :: 0 <= i < done - undone ==> plan[i].value == Value(before, plan[i].key))
      && (forall i :: done - undone <= i < done ==> Recall(memory, plan[i].key) == Some(Value(before, plan[i].key)))
  {
    if && (forall i :: 0 <= i < done - undone ==> plan[i].value == Value(before, plan[i].key))
       && (forall i :: done - undone <= i < done ==> Recall(memory, plan[i].key) == Some(Value(before, plan[i].key)))
    {
      forall key
        ensures Value(after, key) == Value(before, key)
      {
        if Has(plan, key) {
          var i :| 0 <= i < |plan| && plan[i].key == key;
        }
      }
      forall key
        ensures (key in after <==> key in before) && (key in after ==> after[key] == before[key])
      {
        assert Value(after, key) == Value(before, key);
      }
      assert after == before;
    }
  }

  /** A complete undo after a preview brings the configuration back if and only if no value it had to
      write back ended in a line end: those are the values that reading cannot see in full. */
  lemma UndoRestores(before: Config, after: Config, plan: Settings, done: nat)
    requires DistinctKeys(plan) && done <= |plan|
    requires Undone(before, after, plan, Previous(before, plan), done, done)
    ensures after == before <==>
      forall i :: 0 <= i < done && plan[i].key in before ==> NoEnd(before[plan[i].key])
  {
    UndoRestoresExactly(before, after, plan, Previous(before, plan), done, done);
    forall i | 0 <= i < done
      ensures Recall(Previous(before, plan), plan[i].key) == Some(Read(before, plan[i].key))
    {
      RecallAt(Previous(before, plan), i);
    }
    forall i | 0 <= i < done && plan[i].key in before
      ensures Strip(before[plan[i].key]) == before[plan[i].key] <==> NoEnd(before[plan[i].key])
    {
      StripExactly(before[plan[i].key]);
    }
  }

  lemma {:induction false} StripKeepsOneLine(s: string)
    requires OneLine(s)
    ensures Strip(s) == s
  {
    if s != [] {
      assert !LineEnd(s[|s| - 1]);
    }
  }

  ghost predicate Verified(config: Config, plan: Settings) {
    forall i :: 0 <= i < |plan| ==> Read(config, plan[i].key) == plan[i].value
  }

  /** A plan applied in full verifies. */
  lemma AppliedVerifies(before: Config, after: Config, plan: Settings)
    requires Sane(plan) && Holds(before, after, plan)
    ensures Verified(after, plan)
  {
    forall i | 0 <= i < |plan|
      ensures Read(after, plan[i].key) == plan[i].value
    {
      assert Value(after, plan[i].key) == plan[i].value;
      if plan[i].value.Some? {
        StripKeepsOneLine(plan[i].value.value);
      }
    }
  }

  class CommandConfigAdapter {
    var config: Config
    var previous: Option<Settings>

    /** The memory is keyed by distinct keys. */
    predicate Valid()
      reads this
    {
      previous.Some? ==> DistinctKeys(previous.value)
    }

    constructor (config: Config)
      ensures Valid() && this.config == config && previous == None
    {
      this.config := config;
      previous := None;
    }

    method ReadAll(plan: Settings) returns (values: Settings)
      ensures values == Previous(config, plan)
    {
      values := [];
      for i := 0 to |plan|
        invariant values == Previous(config, plan)[..i]
      {
        values := values + [Setting(plan[i].key, Read(config, plan[i].key))];
      }
    }

    /** `readFails`: one of the get commands fails. */
    method Preview(plan: Settings, readFails: bool) returns (raised: bool)
      requires Valid() && DistinctKeys(plan)
      modifies `previous
      ensures Valid()
      ensures raised == readFails
      ensures previous == if raised then old(previous) else Some(Previous(config, plan))
    {
      if readFails {
        return true;
      }
      var values := ReadAll(plan);
      previous := Some(values);
      return false;
    }

    /** Write the plan; with nothing remembered its keys are read first, and `readFails` if one of these
        reads does. The write at `failAt` fails, and then of the undo writes the one at `undoFailAt`.
        Afterwards `done` writes had succeeded and `undone` of them were undone. A memory left by a
        preview of another plan may lack a key, which ends the undo. */
    method Apply(plan: Settings, readFails: bool, failAt: Option<nat>, undoFailAt: Option<nat>)
      returns (raised: bool, done: nat, undone: nat)
      requires Valid() && DistinctKeys(plan)
      modifies this
      ensures Valid()
      ensures old(previous).None? && readFails ==>
        raised && done == undone == 0 && config == old(config) && previous == None
      ensures old(previous).Some? || !readFails ==>
        && previous == (if old(previous).Some? then old(previous) else Some(Previous(old(config), plan)))
        && (raised <==> failAt.Some? && failAt.value < |plan|)
        && done == (if raised then failAt.value else |plan|) && undone <= done
        && (!raised ==> undone == 0 && Holds(old(config), config, plan))
        && (raised && undone < done ==>
              undoFailAt == Some(undone) || Recall(previous.value, plan[done - 1 - undone].key) == None)
        && (forall t :: 0 <= t < undone ==> undoFailAt != Some(t))
        && Undone(old(config), config, plan, previous.value, done, undone)
    {
      if previous.None? {
        if readFails {
          return true, 0, 0;
        }
        var values := ReadAll(plan);
        previous := Some(values);
      }
      done := WriteForward(plan, previous.value, failAt);
      raised, undone := done < |plan|, 0;
      if raised {
        undone := UndoBackward(old(config), plan, previous.value, done, undoFailAt);
      }
    }

    method WriteForward(plan: Settings, ghost saved: Settings, failAt: Option<nat>) returns (done: nat)
      requires DistinctKeys(plan)
      modifies `config
      ensures done == if failAt.Some? && failAt.value < |plan| then failAt.value else |plan|
      ensures Undone(old(config), config, plan, saved, done, 0)
    {
      done := 0;
      while done < |plan| && failAt != Some(done)
        invariant done <= |plan| && (failAt.Some? ==> done <= failAt.value)
        invariant Undone(old(config), config, plan, saved, done, 0)
      {
        config := Write(config, plan[done].key, plan[done].value);
        done := done + 1;
      }
    }

    method UndoBackward(ghost before: Config, plan: Settings, saved: Settings, done: nat, undoFailAt: Option<nat>) returns (undone: nat)
      requires DistinctKeys(plan) && done <= |plan|
      requires Undone(before, config, plan, saved, done, 0)
      modifies `config
      ensures undone <= done && Undone(before, config, plan, saved, done, undone)
      ensures undone < done ==> undoFailAt == Some(undone) || Recall(saved, plan[done - 1 - undone].key) == None
      ensures forall t :: 0 <= t < undone ==> undoFailAt != Some(t)
    {
      undone := 0;
      while undone < done && undoFailAt != Some(undone)
        invariant undone <= done
        invariant forall t :: 0 <= t < undone ==> undoFailAt != Some(t)
        invariant Undone(before, config, plan, saved, done, undone)
      {
        var key := plan[done - 1 - undone].key;
        var saving := Recall(saved, key);
        if saving.None? {
          return;
        }
        config := Write(config, key, saving.value);
        undone := undone + 1;
      }
    }

    method Verify(plan: Settings) returns (verified: bool)
      ensures verified == Verified(config, plan)
    {
      for i := 0 to |plan|
        invariant forall j :: 0 <= j < i ==> Read(config, plan[j].key) == plan[j].value
      {
        var current := Read(config, plan[i].key);
        if plan[i].value.None? {
          if current.Some? {
            return false;
          }
        } else if current.None? || current.value != plan[i].value.value {
          return false;
        }
      }
      return true;
    }

    /** Write back everything remembered, last key first; the write at `failAt` fails. Afterwards `n`
        values were written back. */
    method Rollback(failAt: Option<nat>) returns (raised: bool, n: nat)
      requires Valid()
      modifies `config
      ensures Valid()
      ensures previous.None? ==> !raised && n == 0 && config == old(config)
      ensures previous.Some? ==>
        && (raised <==> failAt.Some? && failAt.value < |previous.value|)
        && n == (if raised then failAt.value else |previous.value|)
        && Holds(old(config), config, previous.value[|previous.value| - n..])
    {
      n := 0;
      if previous.None? {
        return false, 0;
      }
      ghost var before := config;
      var settings := previous.value;
      while n < |settings| && failAt != Some(n)
        invariant n <= |settings| && (failAt.Some? ==> n <= failAt.value)
        invariant Holds(before, config, settings[|settings| - n..])
      {
        var i := |settings| - 1 - n;
        OneMoreHeld(before, config, settings, i);
        config := Write(config, settings[i].key, settings[i].value);
        n := n + 1;
      }
      raised := n < |settings|;
    }
  }

  lemma OneMoreHeld(before: Config, config: Config, settings: Settings, i: nat)
    requires DistinctKeys(settings) && i < |settings| && Holds(before, config, settings[i + 1..])
    ensures Holds(before, Write(config, settings[i].key, settings[i].value), settings[i..])
  {
    var rest, all := settings[i + 1..], settings[i..];
    forall key
      ensures Has(all, key) <==> Has(rest, key) || key == settings[i].key
    {
      if Has(rest, key) {
        var j :| 0 <= j < |rest| && rest[j].key == key;
        assert all[j + 1].key == key;
      }
      assert all[0].key == settings[i].key;
      if Has(all, key) {
        var j :| 0 <= j < |all| && all[j].key == key;
        if j > 0 {
          assert rest[j - 1].key == key;
        }
      }
    }
  }

  /** Rolling back a full apply undoes it in the same sense. */
  lemma RollbackRestores(before: Config, applied: Config, after: Config, plan: Settings)
    requires DistinctKeys(plan) && Holds(before, applied, plan)
    requires Holds(applied, after, Previous(before, plan))
    ensures after == before <==>
      forall i :: 0 <= i < |plan| && plan[i].key in before ==> NoEnd(before[plan[i].key])
  {
    var previous := Previous(before, plan);
    forall key
      ensures Has(plan, key) <==> Has(previous, key)
    {
      if Has(plan, key) {
        var i :| 0 <= i < |plan| && plan[i].key == key;
        assert previous[i].key == key;
      }
    }
    forall i | 0 <= i < |plan|
      ensures Recall(previous, plan[i].key) == Some(Value(after, plan[i].key))
    {
      RecallAt(previous, i);
    }
    assert Undone(before, after, plan, previous, |plan|, |plan|);
    UndoRestores(before, after, plan, |plan|);
  }
}
