/** Passing selectors to a stage worker process on its command line (start_stage_workers in runtime/lifecycle.py). */
module Lifecycle {
  import opened Common
  import opened Targeting

  /** How the worker command reads a repeated option: the argument after each occurrence of its name. */
  function OptionValues(args: seq<string>, name: string): seq<string> {
    if |args| < 2 then []
    else (if args[0] == name then [args[1]] else []) + OptionValues(args[2..], name)
  }

  lemma {:induction false} OptionValuesAppend(args: seq<string>, option: string, value: string, name: string)
    requires |args| % 2 == 0
    ensures OptionValues(args + [option, value], name) == OptionValues(args, name) + if option == name then [value] else []
  {
    var more := args + [option, value];
    if args == [] {
      assert more == [option, value] && more[2..] == [];
      assert OptionValues(more, name) == (if option == name then [value] else []) + OptionValues(more[2..], name);
    } else {
      OptionValuesAppend(args[2..], option, value, name);
      assert more[2..] == args[2..] + [option, value];
    }
  }

  /** The options after the command prefix. */
  method StageWorkerOptions(runId: string, stage: string, workers: string, handlers: string, included: seq<Selector>, excluded: seq<Selector>)
    returns (args: seq<string>)
    ensures OptionValues(args, INCLUDE) == PrintSelectors(included)
                                        == seq(|included|, i requires 0 <= i < |included| => included[i].key + "=" + included[i].value)
    ensures OptionValues(args, EXCLUDE) == PrintSelectors(excluded)
                                        == seq(|excluded|, i requires 0 <= i < |excluded| => excluded[i].key + "=" + excluded[i].value)
    ensures OptionValues(args, RUN_ID) == [runId] && OptionValues(args, STAGE) == [stage]
    ensures OptionValues(args, WORKERS) == [workers] && OptionValues(args, HANDLERS) == [handlers]
  {
    hide OptionValues, PrintSelectors, RUN_ID, STAGE, WORKERS, HANDLERS, INCLUDE, EXCLUDE;
    args := [RUN_ID, runId] + [STAGE, stage] + [WORKERS, workers] + [HANDLERS, handlers];
    NamesDiffer();
    FixedOptions(runId, stage, workers, handlers);
    args := AddSelectors(args, INCLUDE, included);
    args := AddSelectors(args, EXCLUDE, excluded);
    PrintedOneByOne(included);
    PrintedOneByOne(excluded);
  }

  lemma {:induction false} PrintedOneByOne(selectors: seq<Selector>)
    ensures PrintSelectors(selectors) == seq(|selectors|, i requires 0 <= i < |selectors| => selectors[i].key + "=" + selectors[i].value)
  {
    if selectors != [] {
      PrintedOneByOne(selectors[1..]);
    }
  }

  lemma OptionNames()
    ensures RUN_ID == "--run-id" && STAGE == "--stage" && WORKERS == "--workers" && HANDLERS == "--handlers-module"
    ensures INCLUDE == "--include" && EXCLUDE == "--exclude"
  {
  }

  /** One loop of `cmd.extend([option, "key=value"])`. */
  method AddSelectors(args: seq<string>, option: string, selectors: seq<Selector>) returns (more: seq<string>)
    requires |args| % 2 == 0
    ensures |more| % 2 == 0
    ensures forall name :: OptionValues(more, name) == OptionValues(args, name) + if option == name then PrintSelectors(selectors) else []
  {
    more := args;
    for i := 0 to |selectors|
      invariant |more| % 2 == 0
      invariant forall name :: OptionValues(more, name) == OptionValues(args, name) + if option == name then PrintSelectors(selectors[..i]) else []
    {
      PrintMore(selectors, i);
      Appends(more, option, PrintSelector(selectors[i]));
      more := more + [option, PrintSelector(selectors[i])];
    }
    assert selectors[..|selectors|] == selectors;
  }

  lemma Appends(args: seq<string>, option: string, value: string)
    requires |args| % 2 == 0
    ensures forall name :: OptionValues(args + [option, value], name) == OptionValues(args, name) + if option == name then [value] else []
  {
    forall name ensures OptionValues(args + [option, value], name) == OptionValues(args, name) + if option == name then [value] else [] {
      OptionValuesAppend(args, option, value, name);
    }
  }

  lemma {:induction false} PrintMore(selectors: seq<Selector>, i: nat)
    requires i < |selectors|
    ensures PrintSelectors(selectors[..i + 1]) == PrintSelectors(selectors[..i]) + [PrintSelector(selectors[i])]
  {
    if i > 0 {
      PrintMore(selectors[1..], i - 1);
      assert selectors[..i + 1][1..] == selectors[1..][..i] && selectors[..i][1..] == selectors[1..][..i - 1];
    } else {
      assert selectors[..1] == [selectors[0]] && selectors[..1][1..] == [];
      assert PrintSelectors(selectors[..1]) == [PrintSelector(selectors[0])] + PrintSelectors([]);
    }
  }

  const RUN_ID := "--run-id"
  const STAGE := "--stage"
  const WORKERS := "--workers"
  const HANDLERS := "--handlers-module"
  const INCLUDE := "--include"
  const EXCLUDE := "--exclude"

  predicate AllDiffer(a: string, b: string, c: string, d: string, e: string, f: string) {
    a !in {b, c, d, e, f} && b !in {c, d, e, f} && c !in {d, e, f} && d !in {e, f} && e != f
  }

  lemma NamesDiffer()
    ensures AllDiffer(RUN_ID, STAGE, WORKERS, HANDLERS, INCLUDE, EXCLUDE)
  {
    assert WORKERS[2] == 'w' && INCLUDE[2] == 'i' && EXCLUDE[2] == 'e';
    assert |RUN_ID| == 8 && |STAGE| == 7 && |WORKERS| == 9 && |HANDLERS| == 17 && |INCLUDE| == 9 && |EXCLUDE| == 9;
  }

  lemma FixedOptions(runId: string, stage: string, workers: string, handlers: string)
    ensures var args := [RUN_ID, runId] + [STAGE, stage] + [WORKERS, workers] + [HANDLERS, handlers];
            && OptionValues(args, RUN_ID) == [runId] && OptionValues(args, STAGE) == [stage]
            && OptionValues(args, WORKERS) == [workers] && OptionValues(args, HANDLERS) == [handlers]
            && OptionValues(args, INCLUDE) == [] && OptionValues(args, EXCLUDE) == []
  {
    hide OptionValues, RUN_ID, STAGE, WORKERS, HANDLERS, INCLUDE, EXCLUDE;
    NamesDiffer();
    EmptyOptions();
    Appends([], RUN_ID, runId);
    assert [] + [RUN_ID, runId] == [RUN_ID, runId];
    Appends([RUN_ID, runId], STAGE, stage);
    Appends([RUN_ID, runId] + [STAGE, stage], WORKERS, workers);
    Appends([RUN_ID, runId] + [STAGE, stage] + [WORKERS, workers], HANDLERS, handlers);
  }

  lemma EmptyOptions()
    ensures forall name :: OptionValues([], name) == []
  {
  }

  /** Parsed selectors reach the worker process as they were, whatever characters they hold. */
  lemma SelectorsReachTheWorker(values: seq<string>, args: seq<string>, option: string)
    requires ParseSelectors(values).Ok? && OptionValues(args, option) == PrintSelectors(ParseSelectors(values).value)
    ensures ParseSelectors(OptionValues(args, option)) == ParseSelectors(values)
  {
    SelectorsRoundTrip(values);
  }
}
