/**
 * The signal-flag document (interaction-signals.json): a flat map from signal name to a boolean,
 * shared between the coordination server, which asserts flags, and the runner that consumes them.
 */
module Signals {

  /** What a reader finds in the file: nothing, an empty file, text that does not parse as a JSON
      object of flags (a torn write), or the flags themselves. */
  datatype SignalFile = Missing | Blank | Garbage | Flags(flags: map<string, bool>)

  /** The fixture content written at server start and at reset. */
  const ApproveReverification := "APPROVE_REVERIFICATION"
  const InitialSignals := Flags(map[ApproveReverification := false])

  /** The map a server handler works on: an unreadable file counts as no flags at all. */
  function Readable(f: SignalFile): (m: map<string, bool>)
    ensures f.Flags? ==> m == f.flags
    ensures !f.Flags? ==> m == map[]
  {
    if f.Flags? then f.flags else map[]
  }

  /** `signals[name]` is truthy. */
  predicate HasFlag(f: SignalFile, name: string) {
    f.Flags? && name in f.flags && f.flags[name]
  }

  /** POST /signal: read (or start from nothing), set `name` to true, write the whole map back. */
  function AssertSignal(f: SignalFile, name: string): (r: SignalFile)
    ensures r.Flags? && HasFlag(r, name)
    ensures r.flags.Keys == Readable(f).Keys + {name}
    ensures forall k :: k in Readable(f) && k != name ==> r.flags[k] == Readable(f)[k]
    ensures !f.Flags? ==> r.flags == map[name := true]
  {
    Flags(Readable(f)[name := true])
  }

  /** A runner that saw the flag set writes the map back with only that key deleted. */
  function ConsumeFlag(m: map<string, bool>, name: string): (r: SignalFile)
    ensures r.Flags? && !HasFlag(r, name) && r.flags.Keys == m.Keys - {name}
    ensures forall k :: k in m && k != name ==> r.flags[k] == m[k]
  {
    Flags(m - {name})
  }

  /** Asserting one signal leaves every other flag's truth value as it was, provided the file was
      readable; an unreadable file loses them all. */
  lemma AssertKeepsOtherFlags(f: SignalFile, name: string, other: string)
    requires other != name
    ensures HasFlag(AssertSignal(f, name), other) <==> (f.Flags? && HasFlag(f, other))
  {
  }
}
