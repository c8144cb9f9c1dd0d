/** The closed set of state identifiers and their textual names
    (BenchmarkPlotter/src/States/States.hpp). */
module StateIds {

  /** Declaration order matters: the enum's underlying values are 0, 1, 2. */
  datatype StateId = None | MainAppOpen | ExitApplicationState

  /** Every identifier, in declaration order. */
  const AllIds: seq<StateId> := [None, MainAppOpen, ExitApplicationState]

  /** The text `toString` falls back to for a value outside the enum. */
  const UnknownText: string := "Unknown State_ID"

  /** The underlying integer value of the scoped enum. */
  function Ordinal(id: StateId): (n: nat)
    ensures n < |AllIds| && AllIds[n] == id
  {
    match id
    case None => 0
    case MainAppOpen => 1
    case ExitApplicationState => 2
  }

  function ToString(id: StateId): (text: string)
    ensures text != UnknownText
    ensures |text| > 0
  {
    match id
    case None => "None"
    case MainAppOpen => "MainAppOpen"
    case ExitApplicationState => "ExitApplicationState"
  }

  /** The enumeration is exactly None, MainAppOpen, ExitApplicationState, in that order. */
  lemma EnumerationIsExact()
    ensures |AllIds| == 3
    ensures forall i :: 0 <= i < |AllIds| ==> Ordinal(AllIds[i]) == i
  {
  }

  /** Distinct identifiers have distinct names. */
  lemma ToStringInjective(a: StateId, b: StateId)
    ensures ToString(a) == ToString(b) ==> a == b
  {
  }

}
