/** The error maps of a shutdown, keyed by the names of modules and hooks. */
module ShutdownErrors {
  import opened Options

  // What one Stop or hook came back with; a hook's panic comes back as an error.
  datatype Outcome = Outcome(err: Option<string>, late: bool)

  datatype Failure = Returned(err: string) | TimedOut

  // The error wins over the missed deadline.
  function FailureOf(o: Outcome): Option<Failure> {
    match o.err
    case Some(e) => Some(Returned(e))
    case None => if o.late then Some(TimedOut) else None
  }

  predicate FailedAs(names: seq<string>, outcomes: seq<Outcome>, i: nat, name: string)
    requires |names| == |outcomes|
  {
    i < |names| && names[i] == name && FailureOf(outcomes[i]).Some?
  }

  // errs holds, for every name that failed, the failure of the first in the list with that name.
  ghost predicate FirstFailures(errs: map<string, Failure>, names: seq<string>, outcomes: seq<Outcome>)
    requires |names| == |outcomes|
  {
    && (forall i | 0 <= i < |names| && FailedAs(names, outcomes, i, names[i]) :: names[i] in errs)
    && (forall n | n in errs :: exists i | 0 <= i < |names| ::
          && FailedAs(names, outcomes, i, n) && FailureOf(outcomes[i]) == Some(errs[n])
          && (forall j | 0 <= j < i :: !FailedAs(names, outcomes, j, n)))
  }

  // errs holds, for every name that failed, the failure of the last in the list with that name.
  ghost predicate LastFailures(errs: map<string, Failure>, names: seq<string>, outcomes: seq<Outcome>)
    requires |names| == |outcomes|
  {
    && (forall i | 0 <= i < |names| && FailedAs(names, outcomes, i, names[i]) :: names[i] in errs)
    && (forall n | n in errs :: exists i | 0 <= i < |names| ::
          && FailedAs(names, outcomes, i, n) && FailureOf(outcomes[i]) == Some(errs[n])
          && (forall j | i < j < |names| :: !FailedAs(names, outcomes, j, n)))
  }

  // The modules are stopped from the last to the first.
  method StopAll(names: seq<string>, outcomes: seq<Outcome>) returns (errs: map<string, Failure>)
    requires |names| == |outcomes|
    ensures FirstFailures(errs, names, outcomes)
  {
    errs := map[];
    var i := |names| - 1;
    while i >= 0
      invariant -1 <= i < |names|
      invariant forall k | i < k < |names| && FailedAs(names, outcomes, k, names[k]) :: names[k] in errs
      invariant forall n | n in errs :: exists k | i < k < |names| ::
                  && FailedAs(names, outcomes, k, n) && FailureOf(outcomes[k]) == Some(errs[n])
                  && (forall j | i < j < k :: !FailedAs(names, outcomes, j, n))
    {
      var o := outcomes[i];
      if o.err.Some? {
        errs := errs[names[i] := Returned(o.err.value)];
      } else if o.late {
        errs := errs[names[i] := TimedOut];
      }
      i := i - 1;
    }
  }

  method RunHooks(names: seq<string>, outcomes: seq<Outcome>) returns (errs: map<string, Failure>)
    requires |names| == |outcomes|
    ensures LastFailures(errs, names, outcomes)
  {
    errs := map[];
    for i := 0 to |names|
      invariant forall k | 0 <= k < i && FailedAs(names, outcomes, k, names[k]) :: names[k] in errs
      invariant forall n | n in errs :: exists k | 0 <= k < i ::
                  && FailedAs(names, outcomes, k, n) && FailureOf(outcomes[k]) == Some(errs[n])
                  && (forall j | k < j < i :: !FailedAs(names, outcomes, j, n))
    {
      var o := outcomes[i];
      if o.err.Some? {
        errs := errs[names[i] := Returned(o.err.value)];
      } else if o.late {
        errs := errs[names[i] := TimedOut];
      }
    }
  }

  // No failure is missing from the report.
  ghost predicate NothingLost(errs: map<string, Failure>, names: seq<string>, outcomes: seq<Outcome>)
    requires |names| == |outcomes|
  {
    forall i | 0 <= i < |names| && FailedAs(names, outcomes, i, names[i]) ::
      names[i] in errs && FailureOf(outcomes[i]) == Some(errs[names[i]])
  }

  // For given outcomes an error is lost exactly when two modules of one name fail differently.
  lemma StopErrorsLostIff(errs: map<string, Failure>, names: seq<string>, outcomes: seq<Outcome>)
    requires |names| == |outcomes| && FirstFailures(errs, names, outcomes)
    ensures NothingLost(errs, names, outcomes) <==>
            forall i, j | 0 <= i < j < |names| && FailedAs(names, outcomes, i, names[i])
              && FailedAs(names, outcomes, j, names[i]) ::
              outcomes[i].err == outcomes[j].err
  {
  }

  ghost predicate Distinct(names: seq<string>) {
    forall i, j | 0 <= i < j < |names| :: names[i] != names[j]
  }

  // Two modules of one name that fail differently, and nothing else fails.
  function TwoFailures(n: nat, i: nat, j: nat): seq<Outcome> {
    seq(n, k => Outcome(if k == i then Some("a") else if k == j then Some("b") else None, false))
  }

  lemma SameNameLosesAnError(names: seq<string>, i: nat, j: nat)
    requires i < j < |names| && names[i] == names[j]
    ensures var errs := map[names[i] := Returned("a")];
      FirstFailures(errs, names, TwoFailures(|names|, i, j)) && !NothingLost(errs, names, TwoFailures(|names|, i, j))
  {
    var errs, outcomes := map[names[i] := Returned("a")], TwoFailures(|names|, i, j);
    assert FailedAs(names, outcomes, i, names[i]) && FailedAs(names, outcomes, j, names[j]);
  }

  // Nothing asks for distinct module names. The stop errors are complete, whatever the modules do, if and
  // only if the names are distinct.
  lemma StopErrorsCompleteIff(names: seq<string>)
    ensures (forall errs, outcomes: seq<Outcome> | |outcomes| == |names| && FirstFailures(errs, names, outcomes) ::
               NothingLost(errs, names, outcomes)) <==> Distinct(names)
  {
    if i: nat, j: nat :| i < j < |names| && names[i] == names[j] {
      SameNameLosesAnError(names, i, j);
    }
  }

  // With distinct names, as hooks have them, each entry is that of its own module or hook: its error, or the
  // missed deadline if it came back without one, or none.
  lemma {:induction false} ErrorsAre(errs: map<string, Failure>, names: seq<string>, outcomes: seq<Outcome>, i: nat)
    requires |names| == |outcomes| && Distinct(names) && i < |names|
    requires FirstFailures(errs, names, outcomes) || LastFailures(errs, names, outcomes)
    ensures names[i] in errs <==> outcomes[i].err.Some? || outcomes[i].late
    ensures names[i] in errs ==>
      errs[names[i]] == if outcomes[i].err.Some? then Returned(outcomes[i].err.value) else TimedOut
  {
    if FailureOf(outcomes[i]).Some? {
      assert FailedAs(names, outcomes, i, names[i]);
    }
    if names[i] in errs {
      var k :| 0 <= k < |names| && FailedAs(names, outcomes, k, names[i])
        && FailureOf(outcomes[k]) == Some(errs[names[i]]);
      assert k == i;
    }
  }
}
