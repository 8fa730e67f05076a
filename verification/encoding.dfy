/**
 * The part of the action encoder the pipeline relies on: an encoded action is an ordered
 * argument list in which some positions are named placeholders (`#{invoice}`,
 * `#{mySignature}`, `#{myAddress}`). `Args` is `abi.toArray()`, `Substitute` one key of
 * `abi.replace`. The encoder's own internals are not part of this model.
 */
module Encoding {
  import opened Values

  /** One argument position: literal text, or a placeholder that may have been filled. */
  datatype Slot = Literal(text: string) | Placeholder(token: string, fill: Option<string>)

  const InvoiceToken := "#{invoice}"
  const SignatureToken := "#{mySignature}"
  const AddressToken := "#{myAddress}"

  /** The argument text at one position: an unfilled placeholder shows its token. */
  function Render(slot: Slot): string
  {
    match slot
    case Literal(text) => text
    case Placeholder(token, fill) => if fill.Some? then fill.value else token
  }

  /** `abi.toArray()`: the arguments as a flat list of strings. */
  function Args(slots: seq<Slot>): seq<string>
  {
    seq(|slots|, i requires 0 <= i < |slots| => Render(slots[i]))
  }

  /** One slot after substituting `value` for `token`. */
  function Fill(slot: Slot, token: string, value: string): Slot
  {
    if slot.Placeholder? && slot.token == token then Placeholder(token, Some(value)) else slot
  }

  /** `abi.replace({[token]: () => value})`: fills every placeholder named `token`, leaves the rest. */
  function Substitute(slots: seq<Slot>, token: string, value: string): (r: seq<Slot>)
    ensures |r| == |slots|
    ensures forall i | 0 <= i < |slots| ::
      if slots[i].Placeholder? && slots[i].token == token
      then r[i] == Placeholder(token, Some(value))
      else r[i] == slots[i]
  {
    if slots == [] then [] else [Fill(slots[0], token, value)] + Substitute(slots[1..], token, value)
  }

  /** Substituting the same key twice keeps the second value: last write wins. */
  lemma {:induction false} LastWriteWins(slots: seq<Slot>, token: string, first: string, second: string)
    ensures Substitute(Substitute(slots, token, first), token, second) == Substitute(slots, token, second)
  {
    if slots != [] {
      LastWriteWins(slots[1..], token, first, second);
    }
  }

  /** Substitutions of two different keys touch disjoint positions, so their final arguments do not depend on their order. */
  lemma {:induction false} DistinctKeysCommute(slots: seq<Slot>, k1: string, v1: string, k2: string, v2: string)
    requires k1 != k2
    ensures Substitute(Substitute(slots, k1, v1), k2, v2) == Substitute(Substitute(slots, k2, v2), k1, v1)
  {
    if slots != [] {
      DistinctKeysCommute(slots[1..], k1, v1, k2, v2);
    }
  }

  /** After a substitution every position that held `token` shows `value`; every other argument is unchanged. */
  lemma SubstitutedArgs(slots: seq<Slot>, token: string, value: string, i: int)
    requires 0 <= i < |slots|
    ensures |Args(Substitute(slots, token, value))| == |slots|
    ensures Args(Substitute(slots, token, value))[i]
            == if slots[i].Placeholder? && slots[i].token == token then value else Args(slots)[i]
  {
  }
}
