/**
 The command registry a node's state machine is built with: the built-in
 default commands overlaid by the caller's commands, as `NewDB` assembles it
 at startup. The executor type is left abstract; only its identity matters.
 */
module Registry {

  /** The merge loop of `NewDB`. Caller commands are visited in an arbitrary
      order (Go map iteration); each visit first logs a warning if the name is
      already registered and then installs the caller's executor. `warnings`
      is the sequence of names the warnings were logged for, in log order. */
  method MergeCommands<Exec>(defaults: map<string, Exec>, commands: map<string, Exec>)
    returns (merged: map<string, Exec>, warnings: seq<string>)
    ensures merged == defaults + commands
    ensures merged.Keys == defaults.Keys + commands.Keys
    ensures forall name :: name in commands ==> merged[name] == commands[name]
    ensures forall name :: name in defaults && name !in commands ==> merged[name] == defaults[name]
    ensures forall name :: name in warnings <==> name in defaults && name in commands
    ensures Distinct(warnings)
  {
    merged := defaults;
    warnings := [];
    var todo := commands.Keys;
    while todo != {}
      invariant todo <= commands.Keys
      invariant merged.Keys == defaults.Keys + (commands.Keys - todo)
      invariant forall name :: name in commands && name !in todo ==> merged[name] == commands[name]
      invariant forall name :: name in defaults && (name !in commands || name in todo) ==> merged[name] == defaults[name]
      invariant forall name :: name in warnings <==> name in defaults && name in commands && name !in todo
      invariant Distinct(warnings)
      decreases todo
    {
      var name :| name in todo;
      if name in merged {
        warnings := warnings + [name];
      }
      merged := merged[name := commands[name]];
      todo := todo - {name};
    }
  }

  predicate Distinct(xs: seq<string>) {
    forall i, j :: 0 <= i < j < |xs| ==> xs[i] != xs[j]
  }

  /** A warning log naming each clashing command once, and nothing else, has
      exactly as many entries as there are clashing names. */
  lemma WarningPerClash(warnings: seq<string>, defaults: set<string>, commands: set<string>)
    requires Distinct(warnings)
    requires forall name :: name in warnings <==> name in defaults && name in commands
    ensures |warnings| == |defaults * commands|
  {
    DistinctCardinality(warnings, defaults * commands);
  }

  /** A sequence without repetitions is exactly as long as the set it lists. */
  lemma {:induction false} DistinctCardinality(xs: seq<string>, s: set<string>)
    requires Distinct(xs)
    requires forall x :: x in xs <==> x in s
    ensures |xs| == |s|
  {
    if xs != [] {
      var last := xs[|xs| - 1];
      var init := xs[..|xs| - 1];
      assert xs == init + [last];
      forall x
        ensures x in init <==> x in s - {last}
      {
        if x in init {
          var k :| 0 <= k < |init| && init[k] == x;
          assert xs[k] == x && k < |xs| - 1;
        }
      }
      DistinctCardinality(init, s - {last});
    }
  }
}
