// The difference between an agent's live evolution config and the one a shadow
// run proposes, as the A/B report shows it.
module EvolutionDiff {
  import opened Options
  import opened Text

  // A decoded JSON value.
  datatype Json =
    | Null
    | Bool(b: bool)
    | Number(n: real)
    | Words(s: string)
    | List(items: seq<Json>)
    | Object(fields: map<string, Json>)

  type Config = map<string, Json>

  // The stored column: absent or unreadable, or an object.
  datatype Column = Unreadable | Readable(config: Config)

  datatype Agent = Found(column: Column) | Missing | Failed

  datatype Diff = Diff(added: Config, changed: map<string, (Json, Json)>, removed: seq<string>)

  // Values a config does not keep.
  predicate Blank(v: Json) {
    v.Null? || (v.Words? && Trim(v.s) == "") || (v.Object? && v.fields == map[])
  }

  function Compact(c: Config): Config {
    map k | k in c && !Blank(c[k]) :: c[k]
  }

  function Loaded(column: Column): Config {
    if column.Unreadable? then map[] else Compact(column.config)
  }

  // What is worth keeping: all but null, text of white space alone and an empty object;
  // false, zero and an empty list stay.
  ghost predicate Substantial(v: Json) {
    match v
    case Null => false
    case Words(s) => exists i | 0 <= i < |s| :: !IsSpace(s[i])
    case Object(fields) => exists k :: k in fields
    case _ => true
  }

  lemma BlankExactly(v: Json)
    ensures Blank(v) <==> !Substantial(v)
  {
    if v.Words? {
      TrimEmpty(v.s);
    } else if v.Object? {
      assert v.fields != map[] ==> v.fields.Keys != {};
    }
    hide Trim;
  }

  // A loaded config has just the keys with such a value, and their values.
  ghost predicate Keeps(config: Config, column: Column) {
    match column
    case Unreadable => forall k :: k !in config
    case Readable(stored) =>
      && (forall k :: k in config <==> k in stored && Substantial(stored[k]))
      && (forall k | k in config :: config[k] == stored[k])
  }

  lemma LoadedExactly(column: Column)
    ensures Keeps(Loaded(column), column)
  {
    forall v: Json ensures Blank(v) <==> !Substantial(v) {
      BlankExactly(v);
    }
    hide Blank, Substantial;
  }

  method MapFromJson(column: Column) returns (config: Config)
    ensures config == Loaded(column) && Keeps(config, column)
  {
    LoadedExactly(column);
    config := map[];
    if column.Unreadable? {
      return;
    }
    var left := column.config.Keys;
    while left != {}
      invariant left <= column.config.Keys
      invariant config == map k | k in column.config && k !in left && !Blank(column.config[k]) :: column.config[k]
      decreases left
    {
      var k :| k in left;
      var v := column.config[k];
      if !(v.Null? || (v.Words? && Trim(v.s) == "") || (v.Object? && v.fields == map[])) {
        config := config[k := v];
      }
      left := left - {k};
    }
  }

  // A diff that says exactly how to get from one config to the other.
  ghost predicate Describes(d: Diff, current: Config, proposed: Config) {
    && d.added.Keys == proposed.Keys - current.Keys
    && (forall k | k in d.added :: d.added[k] == proposed[k])
    && (forall k :: k in d.changed <==> k in proposed && k in current && proposed[k] != current[k])
    && (forall k | k in d.changed :: d.changed[k] == (current[k], proposed[k]))
    && (forall k :: k in d.removed <==> k in current && k !in proposed)
    && (forall i, j | 0 <= i < j < |d.removed| :: d.removed[i] != d.removed[j])
  }

  // What to show for a proposal: nothing when it is empty, equal to the live
  // config, or the agent could not be read; all of it when there is no agent.
  ghost predicate IsDiff(diff: Option<Diff>, agent: Agent, proposed: Config) {
    if proposed == map[] || agent.Failed? then diff == None
    else if agent.Missing? then diff == Some(Diff(proposed, map[], []))
    else
      var current := Loaded(agent.column);
      && (diff == None <==> current == proposed)
      && (diff.Some? ==> Describes(diff.value, current, proposed))
  }

  method ComputeDiff(agent: Agent, proposed: Config) returns (diff: Option<Diff>)
    ensures IsDiff(diff, agent, proposed)
  {
    if |proposed| == 0 {
      return None;
    }
    if !agent.Found? {
      if agent.Missing? {
        return Some(Diff(proposed, map[], []));
      }
      return None;
    }
    var current := MapFromJson(agent.column);
    var added, changed := Compare(current, proposed);
    var removed := Gone(current, proposed);
    var d := Diff(added, changed, removed);
    if |added| == 0 && |changed| == 0 && |removed| == 0 {
      NothingDiffers(d, current, proposed);
      return None;
    }
    SomethingDiffers(d, current, proposed);
    return Some(d);
  }

  method Compare(current: Config, proposed: Config) returns (added: Config, changed: map<string, (Json, Json)>)
    ensures added.Keys == proposed.Keys - current.Keys
    ensures forall k | k in added :: added[k] == proposed[k]
    ensures forall k :: k in changed <==> k in proposed && k in current && proposed[k] != current[k]
    ensures forall k | k in changed :: changed[k] == (current[k], proposed[k])
  {
    added, changed := map[], map[];
    var left := proposed.Keys;
    while left != {}
      invariant left <= proposed.Keys
      invariant added.Keys == (proposed.Keys - left) - current.Keys
      invariant forall k | k in added :: added[k] == proposed[k]
      invariant forall k :: k in changed <==> k in proposed && k !in left && k in current && proposed[k] != current[k]
      invariant forall k | k in changed :: changed[k] == (current[k], proposed[k])
      decreases left
    {
      var k :| k in left;
      left := left - {k};
      if k !in current {
        added := added[k := proposed[k]];
        continue;
      }
      if current[k] != proposed[k] {
        changed := changed[k := (current[k], proposed[k])];
      }
    }
  }

  method Gone(current: Config, proposed: Config) returns (removed: seq<string>)
    ensures forall k :: k in removed <==> k in current && k !in proposed
    ensures forall i, j | 0 <= i < j < |removed| :: removed[i] != removed[j]
  {
    removed := [];
    var left := current.Keys;
    while left != {}
      invariant left <= current.Keys
      invariant forall k :: k in removed <==> k in current && k !in left && k !in proposed
      invariant forall i, j | 0 <= i < j < |removed| :: removed[i] != removed[j]
      decreases left
    {
      var k :| k in left;
      if k !in proposed {
        removed := removed + [k];
      }
      left := left - {k};
    }
  }

  lemma NothingDiffers(d: Diff, current: Config, proposed: Config)
    requires Describes(d, current, proposed) && d == Diff(map[], map[], [])
    ensures current == proposed
  {
  }

  lemma SomethingDiffers(d: Diff, current: Config, proposed: Config)
    requires Describes(d, current, proposed) && (|d.added| > 0 || |d.changed| > 0 || |d.removed| > 0)
    ensures current != proposed
  {
    if |d.added| > 0 {
      var k :| k in d.added.Keys;
    } else if |d.changed| > 0 {
      var k :| k in d.changed.Keys;
    } else {
      assert d.removed[0] in d.removed;
    }
  }

  // --- What a diff means --------------------------------------------------------

  // Applying a diff.
  function Patched(current: Config, d: Diff): Config {
    (map k | k in current && k !in d.removed :: if k in d.changed then d.changed[k].1 else current[k]) + d.added
  }

  // Taking it back, given the values it removes.
  function Unpatched(proposed: Config, d: Diff, was: Config): Config {
    (map k | k in proposed && k !in d.added :: if k in d.changed then d.changed[k].0 else proposed[k])
      + (map k | k in was && k in d.removed :: was[k])
  }

  // A diff is an exact patch: its three parts touch different keys, applying it
  // to the live config gives the proposal, and undoing it gives the live config.
  lemma ExactPatch(agent: Agent, proposed: Config, diff: Option<Diff>)
    requires IsDiff(diff, agent, proposed) && agent.Found? && diff.Some?
    ensures var d, current := diff.value, Loaded(agent.column);
            && Patched(current, d) == proposed && Unpatched(proposed, d, current) == current
            && (forall k :: !(k in d.added && k in d.changed) && !(k in d.added && k in d.removed))
            && (forall k :: !(k in d.changed && k in d.removed))
            && (forall k | k in d.changed :: d.changed[k].0 != d.changed[k].1)
  {
  }

  // What the diff is taken from: nothing for an agent that is not there.
  function Live(agent: Agent): Config {
    if agent.Found? then Loaded(agent.column) else map[]
  }

  // A diff is shown exactly when something is proposed, the agent could be looked up and
  // its config differs; and it always leads from that config to the proposal.
  lemma DiffExactly(agent: Agent, proposed: Config, diff: Option<Diff>)
    requires IsDiff(diff, agent, proposed)
    ensures diff.Some? <==> (exists k :: k in proposed) && !agent.Failed? && Live(agent) != proposed
    ensures diff.Some? ==>
              && Patched(Live(agent), diff.value) == proposed
              && Unpatched(proposed, diff.value, Live(agent)) == Live(agent)
  {
    if proposed != map[] {
      assert proposed.Keys != {};
      if agent.Found? && diff.Some? {
        ExactPatch(agent, proposed, diff);
      }
    }
    hide Loaded;
  }

  // No diff shrinks: any patch that leads from the live config to the proposal
  // touches every key this one touches.
  lemma Least(d: Diff, current: Config, proposed: Config, other: Diff, k: string)
    requires Describes(d, current, proposed) && Patched(current, other) == proposed
    requires k in d.added || k in d.changed || k in d.removed
    ensures k in other.added || k in other.changed || k in other.removed
  {
  }

  // The diff the other way round exchanges additions and removals, and the two
  // sides of every change.
  lemma Reversed(d: Diff, back: Diff, current: Config, proposed: Config)
    requires Describes(d, current, proposed) && Describes(back, proposed, current)
    ensures forall k :: (k in back.added <==> k in d.removed) && (k in back.removed <==> k in d.added)
    ensures back.changed.Keys == d.changed.Keys
    ensures forall k | k in d.changed :: back.changed[k] == (d.changed[k].1, d.changed[k].0)
  {
  }

  // Both configs lose their blank values on the way in, once and for all.
  lemma CompactTwice(c: Config)
    ensures Compact(Compact(c)) == Compact(c)
  {
  }

  // What the report shows for two stored columns: nothing exactly when the
  // compacted configs agree, or the proposal has nothing but blank values.
  lemma ShownExactly(live: Column, stored: Column, diff: Option<Diff>)
    requires IsDiff(diff, Found(live), Loaded(stored))
    ensures diff == None <==> Loaded(stored) == map[] || Loaded(live) == Loaded(stored)
  {
  }

  lemma BlankProposalHides(live: Column, stored: Column)
    requires Loaded(live) != map[] && stored.Readable? && (forall k | k in stored.config :: Blank(stored.config[k]))
    ensures IsDiff(None, Found(live), Loaded(stored)) && Loaded(live) != Loaded(stored)
  {
  }
}
