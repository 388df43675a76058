/**
 * The user-argument view of the process argument list
 * (ProcessInfo.userArgumentCount and ProcessInfo.userArguments).
 * The first process argument is the program's own name; the rest are the user's.
 */
module CommandLine {

  function Max(a: int, b: int): int
  {
    if a < b then b else a
  }

  /** The number of arguments the user typed: one less than the process arguments, so -1 for none. */
  function UserArgumentCount(arguments: seq<string>): (n: int)
    ensures n >= -1
    ensures n < 0 <==> arguments == []
    ensures n + 1 == |arguments|
  {
    |arguments| - 1
  }

  /** The arguments the user typed: every process argument except the first. */
  function UserArguments(arguments: seq<string>): (r: seq<string>)
    ensures UserArgumentCount(arguments) <= 0 ==> r == []
    ensures |r| == Max(0, UserArgumentCount(arguments))
    ensures forall i :: 0 <= i < |r| ==> r[i] == arguments[i + 1]
  {
    if UserArgumentCount(arguments) <= 0 then [] else arguments[1..]
  }

  /** Putting the program name back in front of the user arguments gives the process arguments. */
  lemma UserArgumentsDropOnlyTheFirst(arguments: seq<string>)
    requires |arguments| >= 1
    ensures [arguments[0]] + UserArguments(arguments) == arguments
  {
  }
}
