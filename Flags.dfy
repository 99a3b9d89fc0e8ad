/** A record of named on/off flags, as the forms keep their checkboxes: a
    missing name reads as off, and flipping a name writes the opposite of
    what it reads. */
module Flags {
  type FlagMap = map<string, bool>

  /** `!!flags[name]`. */
  predicate Checked(flags: FlagMap, name: string)
  {
    name in flags && flags[name]
  }

  /** `{ ...flags, [name]: !flags[name] }`. */
  function Flipped(flags: FlagMap, name: string): (r: FlagMap)
    ensures name in r
    ensures r.Keys == flags.Keys + {name}
  {
    flags[name := !Checked(flags, name)]
  }

  /** Some flag is on: `Object.values(flags).some(Boolean)`. */
  predicate AnyChecked(flags: FlagMap)
  {
    exists name :: name in flags && flags[name]
  }

  /** Flipping changes the named flag and no other. */
  lemma FlippedChangesOnlyName(flags: FlagMap, name: string)
    ensures Checked(Flipped(flags, name), name) == !Checked(flags, name)
    ensures forall other :: other != name ==> Checked(Flipped(flags, name), other) == Checked(flags, other)
  {
  }

  /** Flipping twice gives every flag its old reading back. */
  lemma FlippedTwice(flags: FlagMap, name: string)
    ensures forall other :: Checked(Flipped(Flipped(flags, name), name), other) == Checked(flags, other)
  {
  }
}
