/**
 * `enqueue` and `play`: the daemon commands each descriptor gives rise to,
 * and the `playid` command picked from the daemon's replies. A command is a
 * record of its name and parameters; sending it over the socket is not
 * modelled.
 */
module Enqueue {
  import opened Seqs
  import opened Config
  import opened Loader

  /** A command parameter: text, a number, or the `NaN` that `Number.parseInt(undefined)` gives. */
  datatype Param = Text(s: string) | Num(n: int) | NotANumber

  datatype Command = Command(name: string, params: seq<Param>)

  /** The daemon's reply: the raw acknowledgement of `playlistadd`, or the parsed `addid` reply with its `Id`. */
  datatype Reply = Ack | Added(id: int)

  function PlaylistAdd(playlist: string, file: string): Command
  {
    Command("playlistadd", [Text(playlist), Text(file)])
  }

  function AddId(file: string): Command
  {
    Command("addid", [Text(file)])
  }

  /** The number of commands `enqueue` plans for each descriptor under `args`. */
  function PerEntry(args: Args): nat
  {
    (if PlaylistSet(args) then 1 else 0) + (if AddsToQueue(args) then 1 else 0)
  }

  /**
   * The commands planned for one descriptor, in order: `playlistadd` into the
   * named playlist when one is set, then `addid` when no playlist is set or
   * playback is to start.
   */
  function PlanEntry(d: Descriptor, args: Args): (cmds: seq<Command>)
    ensures |cmds| == PerEntry(args) && |cmds| <= 2
    ensures (exists k | 0 <= k < |cmds| :: cmds[k].name == "playlistadd") <==> PlaylistSet(args)
    ensures (exists k | 0 <= k < |cmds| :: cmds[k].name == "addid") <==> AddsToQueue(args)
    ensures PlaylistSet(args) ==> cmds[0] == PlaylistAdd(args.playlist.value, d.file)
    ensures AddsToQueue(args) ==> cmds[|cmds| - 1] == AddId(d.file)
  {
    var cmds := (if PlaylistSet(args) then [PlaylistAdd(args.playlist.value, d.file)] else [])
      + (if AddsToQueue(args) then [AddId(d.file)] else []);
    assert |"playlistadd"| != |"addid"|;
    assert PlaylistSet(args) ==> cmds[0].name == "playlistadd";
    assert AddsToQueue(args) ==> cmds[|cmds| - 1].name == "addid";
    cmds
  }

  /** The per-descriptor body of `enqueue`: `all` grows by one push per planned command. */
  method PlanEntryCommands(d: Descriptor, args: Args) returns (all: seq<Command>)
    ensures all == PlanEntry(d, args)
  {
    all := [];
    if PlaylistSet(args) {
      all := all + [PlaylistAdd(args.playlist.value, d.file)];
    }
    if !PlaylistSet(args) || args.start {
      all := all + [AddId(d.file)];
    }
  }

  /** `entries.map(...)` in `enqueue`: one command list per descriptor, at the same index. */
  function Plan(descs: seq<Descriptor>, args: Args): (plan: seq<seq<Command>>)
    ensures |plan| == |descs|
    ensures forall i | 0 <= i < |descs| :: plan[i] == PlanEntry(descs[i], args)
  {
    seq(|descs|, i requires 0 <= i < |descs| => PlanEntry(descs[i], args))
  }

  /** The reply the daemon gives to a command when it succeeds. */
  predicate Fits(c: Command, r: Reply)
  {
    (c.name == "addid" ==> r.Added?) && (c.name == "playlistadd" ==> r.Ack?)
  }

  /**
   * `queued` is what `enqueue` resolves to for `plan`: `Promise.all` keeps
   * one reply list per descriptor and one reply per command, in position.
   */
  predicate Answers(plan: seq<seq<Command>>, queued: seq<seq<Reply>>)
  {
    && |queued| == |plan|
    && (forall i | 0 <= i < |plan| :: |queued[i]| == |plan[i]|)
    && (forall i, j | 0 <= i < |plan| && 0 <= j < |plan[i]| :: Fits(plan[i][j], queued[i][j]))
  }

  /**
   * `play`: the last reply of the last descriptor, its `Id` read as a number.
   * A raw acknowledgement has no `Id`, which reads as `NaN`. The source
   * dereferences `undefined` when either list is empty.
   */
  function Play(queued: seq<seq<Reply>>): (c: Command)
    requires |queued| > 0 && |Last(queued)| > 0
    ensures c.name == "playid" && |c.params| == 1
    ensures Last(Last(queued)).Added? ==> c.params == [Num(Last(Last(queued)).id)]
    ensures Last(Last(queued)).Ack? ==> c.params == [NotANumber]
  {
    match Last(Last(queued))
    case Added(id) => Command("playid", [Num(id)])
    case Ack => Command("playid", [NotANumber])
  }

  /** With `start` set, every descriptor's command list is non-empty and ends with its `addid`. */
  lemma StartEndsWithAddId(descs: seq<Descriptor>, args: Args, i: int)
    requires args.start && 0 <= i < |descs|
    ensures var cmds := Plan(descs, args)[i]; |cmds| > 0 && Last(cmds) == AddId(descs[i].file)
  {
    assert Plan(descs, args)[i] == PlanEntry(descs[i], args);
  }

  /**
   * With `start` set and a non-empty queue, `play` issues `playid` with the
   * `Id` the daemon gave to the `addid` of the last descriptor.
   */
  lemma StartPlaysLastAdded(descs: seq<Descriptor>, args: Args, queued: seq<seq<Reply>>)
    requires args.start && |descs| > 0
    requires Answers(Plan(descs, args), queued)
    ensures |queued| > 0 && |Last(queued)| > 0
    ensures Last(Plan(descs, args)[|descs| - 1]) == AddId(Last(descs).file)
    ensures Last(Last(queued)).Added?
    ensures Play(queued) == Command("playid", [Num(Last(Last(queued)).id)])
  {
    var plan := Plan(descs, args);
    var n := |descs| - 1;
    StartEndsWithAddId(descs, args, n);
    var m := |plan[n]| - 1;
    assert Fits(plan[n][m], queued[n][m]);
  }

  /** Every descriptor gets the same number of commands, so the whole plan has that many per descriptor. */
  lemma PlanSize(descs: seq<Descriptor>, args: Args)
    ensures |Flatten(Plan(descs, args))| == PerEntry(args) * |descs|
  {
    FlattenUniform(Plan(descs, args), PerEntry(args));
  }
}
