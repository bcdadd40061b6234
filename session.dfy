/**
 * The call site in `main`: resolve the entries, enqueue the flat list, and
 * when `start` is set play the last enqueued track. The daemon's replies are
 * an input, `queued`; the lemmas consider replies that answer the plan.
 */
module Session {
  import opened Seqs
  import opened Config
  import opened Loader
  import opened Pipeline
  import opened Enqueue

  /**
   * How the run ends: without playing, after playing, or with the `TypeError`
   * that `play` raises on an empty reply list (the run then only disconnects
   * and rethrows).
   */
  datatype Outcome = NotStarted | Played(play: Command) | Crashed

  /** Every command sent, in the order `sendCommand` is called, and the outcome. */
  datatype Run = Run(sent: seq<Command>, outcome: Outcome)

  /** The step after `enqueue` resolves: `play` runs only when `start` is set. */
  function AfterEnqueue(queued: seq<seq<Reply>>, args: Args): (o: Outcome)
    ensures !args.start <==> o.NotStarted?
    ensures o.Crashed? <==> args.start && (|queued| == 0 || |Last(queued)| == 0)
  {
    if !args.start then NotStarted
    else if |queued| == 0 || |Last(queued)| == 0 then Crashed
    else Played(Play(queued))
  }

  /** The second half of `main`, from the flat list on: enqueue, then maybe play. */
  function Deliver(flat: seq<Descriptor>, args: Args, queued: seq<seq<Reply>>): (r: Run)
    ensures r.outcome.Played? ==> args.start && r.sent == Flatten(Plan(flat, args)) + [r.outcome.play]
    ensures !r.outcome.Played? ==> r.sent == Flatten(Plan(flat, args))
  {
    var outcome := AfterEnqueue(queued, args);
    Run(Flatten(Plan(flat, args)) + (if outcome.Played? then [outcome.play] else []), outcome)
  }

  /** `main` apart from option parsing, loading, and the socket: the flat list of `argv`'s entries, delivered. */
  function Main(argv: seq<string>, args: Args, source: Source, queued: seq<seq<Reply>>): Run
  {
    Deliver(Resolve(argv, e => LoadEntry(e, args, source)), args, queued)
  }

  /** With replies that answer the plan, the run crashes exactly when `start` is set and nothing was resolved. */
  lemma DeliverCrashesIff(flat: seq<Descriptor>, args: Args, queued: seq<seq<Reply>>)
    requires Answers(Plan(flat, args), queued)
    ensures Deliver(flat, args, queued).outcome.Crashed? <==> args.start && |flat| == 0
  {
    if args.start && |flat| > 0 {
      StartPlaysLastAdded(flat, args, queued);
    }
  }

  /**
   * With `start` set and a non-empty flat list, the last command sent is
   * `playid` with the `Id` the daemon returned for the `addid` of the last
   * descriptor.
   */
  lemma DeliverPlaysLast(flat: seq<Descriptor>, args: Args, queued: seq<seq<Reply>>)
    requires args.start && |flat| > 0
    requires Answers(Plan(flat, args), queued)
    ensures var r := Deliver(flat, args, queued);
      && Last(Plan(flat, args)[|flat| - 1]) == AddId(Last(flat).file)
      && Last(Last(queued)).Added?
      && r.outcome == Played(Command("playid", [Num(Last(Last(queued)).id)]))
      && Last(r.sent) == r.outcome.play
  {
    StartPlaysLastAdded(flat, args, queued);
  }

  /** The number of commands sent: the per-descriptor count for each descriptor, plus one `playid` when it plays. */
  lemma DeliverSentCount(flat: seq<Descriptor>, args: Args, queued: seq<seq<Reply>>)
    requires Answers(Plan(flat, args), queued)
    ensures |Deliver(flat, args, queued).sent| == PerEntry(args) * |flat| + (if args.start && |flat| > 0 then 1 else 0)
  {
    PlanSize(flat, args);
    DeliverCrashesIff(flat, args, queued);
  }

  /** Two entries after the interpreter and the script: the commands are planned for the first entry's tracks, then the second's. */
  lemma MainTwoEntries(node: string, script: string, a: string, b: string, args: Args, source: Source, queued: seq<seq<Reply>>)
    ensures Main([node, script, a, b], args, source, queued) ==
      Deliver(LoadEntry(a, args, source) + LoadEntry(b, args, source), args, queued)
  {
    ResolveTwo(node, script, a, b, e => LoadEntry(e, args, source));
  }
}
