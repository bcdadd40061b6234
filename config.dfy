/**
 * The parsed command line, as far as the modelled rules read it. Host and
 * port only reach the socket client, and the password is parsed but never
 * used, so none of the three is part of this record.
 */
module Config {
  import opened Wrappers

  datatype Args = Args(
    playlist: Option<string>,  // --playlist / -p
    num: Option<int>,          // --num / -n
    start: bool,               // --start / -s, true unless switched off
    verbose: nat)              // --verbose / -v, a count

  /** `args.playlist` is truthy: given and not the empty string. */
  predicate PlaylistSet(args: Args) { args.playlist.Some? && args.playlist.value != "" }

  /** `args.verbose` is truthy. */
  predicate Verbose(args: Args) { args.verbose > 0 }

  /** `!args.playlist || args.start`: an entry is also added to the current play queue. */
  predicate AddsToQueue(args: Args) { !PlaylistSet(args) || args.start }
}
