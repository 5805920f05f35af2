/**
 The two validators of the withdrawal dialogue (main.py): the amount step,
 `int(message.text.strip())` followed by the inclusive range check, and the
 address step, `message.text.split()` followed by taking the second token.
 */
module Withdrawal {
  import opened Wrappers
  import opened Text
  import opened Decimal

  /** The smallest and largest number of Paws a user may withdraw, both allowed. */
  const MinAmount := 200
  const MaxAmount := 10000

  predicate InRange(a: int) {
    MinAmount <= a <= MaxAmount
  }

  /** The three outcomes of the amount step. */
  datatype AmountCheck =
    | NotANumber            // int() raised ValueError
    | OutOfRange(value: int) // a number outside 200..10000
    | Accepted(amount: int)  // a number inside 200..10000

  /** Parse the reply to the amount prompt and check its range. */
  function CheckAmount(text: string): (r: AmountCheck)
    ensures r.NotANumber? <==> !IsIntLiteral(Strip(text))
    ensures r.OutOfRange? ==> ParseInt(Strip(text)) == Some(r.value) && !InRange(r.value)
    ensures r.Accepted? ==> ParseInt(Strip(text)) == Some(r.amount) && InRange(r.amount)
  {
    match ParseInt(Strip(text))
    case None => NotANumber
    case Some(a) => if InRange(a) then Accepted(a) else OutOfRange(a)
  }

  /** For every integer `a`, a reply spelling `a` (with any whitespace around it)
      is accepted exactly when 200 <= a <= 10000, and is otherwise a range error,
      never a number error. */
  lemma CheckAmountOfNumeral(w1: string, a: int, w2: string)
    requires AllSpace(w1) && AllSpace(w2)
    ensures CheckAmount(w1 + Show(a) + w2) == if InRange(a) then Accepted(a) else OutOfRange(a)
  {
    var s := Show(a);
    assert s[0] != ' ' && s[|s| - 1] != ' ';
    assert Trimmed(s);
    StripPadded(w1, s, w2);
    ParseShow(a);
  }

  /** The address step: the second whitespace-separated token, if there is one. */
  function WalletAddress(text: string): (r: Option<string>)
    ensures r.Some? <==> |Split(text)| >= 2
    ensures r.Some? ==> r.value == Split(text)[1] && IsToken(r.value)
  {
    var parts := Split(text);
    if |parts| < 2 then None else Some(parts[1])
  }

  /** Tokens typed with spaces between them give the second token as the
      address, whatever follows it: tokens after the second are ignored. */
  lemma WalletAddressOfJoin(ts: seq<string>)
    requires AllTokens(ts) && |ts| >= 2
    ensures WalletAddress(Join(ts)) == Some(ts[1])
    ensures WalletAddress(Join(ts)) == WalletAddress(Join(ts[..2]))
  {
    SplitJoin(ts);
    SplitJoin(ts[..2]);
  }

  /** The line the address prompt asks for, a command and an address
      separated by one space, gives that address. */
  lemma WalletAddressOfLine(command: string, address: string)
    requires IsToken(command) && IsToken(address)
    ensures WalletAddress(command + " " + address) == Some(address)
  {
    WalletAddressOfJoin([command, address]);
    assert Join([command, address]) == command + " " + address;
  }

  /** A reply with a single token, however it is padded, has no address. */
  lemma WalletAddressOfOneToken(w1: string, t: string, w2: string)
    requires AllSpace(w1) && AllSpace(w2) && IsToken(t)
    ensures WalletAddress(w1 + t + w2) == None
  {
    assert w1 + t + w2 == w1 + (t + w2);
    SplitPadded(w1, t + w2);
    SplitToken(t, w2);
    SplitAllSpace(w2);
  }

  /** In particular a reply of one bare word has no address. */
  lemma WalletAddressOfWord(t: string)
    requires IsToken(t)
    ensures WalletAddress(t) == None
  {
    SplitToken(t, []);
    assert t + [] == t;
  }

  /** A reply of whitespace only has no address. */
  lemma WalletAddressOfBlank(w: string)
    requires AllSpace(w)
    ensures WalletAddress(w) == None
  {
    SplitAllSpace(w);
  }
}
