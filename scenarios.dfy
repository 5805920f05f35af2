/**
 Conversations with the bot, stated from the `Bot` methods' contracts alone:
 properties of sequences of updates for any reachable state, and the
 concrete exchanges the bot is meant to have with one user.
 */
module Scenarios {
  import opened Wrappers
  import opened Text
  import opened Decimal
  import opened Withdrawal
  import opened PawsBot

  /** Two messages in a row: the second is a duplicate exactly when the two
      texts have the same normal form, whatever was stored before. */
  method SpamTwice(b: Bot, u: UserId, t1: string, t2: string) returns (second: bool)
    modifies b`lastMessage
    ensures second <==> Normalize(t1) == Normalize(t2)
    ensures b.lastMessage == old(b.lastMessage)[u := Normalize(t2)]
  {
    var _ := b.IsSpam(u, t1);
    assert LastOf(b.lastMessage, u) == Normalize(t1);
    second := b.IsSpam(u, t2);
  }

  /** Only the immediately preceding message counts: the same text twice with
      a differently normalising one between them is not a duplicate. */
  method SpamInterleaved(b: Bot, u: UserId, t: string, other: string) returns (third: bool)
    requires Normalize(t) != Normalize(other)
    modifies b`lastMessage
    ensures !third
  {
    var _ := b.IsSpam(u, t);
    var _ := b.IsSpam(u, other);
    third := b.IsSpam(u, t);
  }

  /** Another user's messages do not affect this user's duplicate check. */
  method SpamPerUser(b: Bot, u: UserId, v: UserId, t: string, other: string) returns (second: bool)
    requires u != v
    modifies b`lastMessage
    ensures second
  {
    var _ := b.IsSpam(u, t);
    var _ := b.IsSpam(v, other);
    second := b.IsSpam(u, t);
  }

  /** `/start` is idempotent on the counters and welcomes the user each time. */
  method StartTwice(b: Bot, u: UserId)
    requires b.Valid()
    modifies b`points, b`referrals, b`outbox
    ensures b.Valid()
    ensures u in b.points && b.points[u] == 0 && b.referrals[u] == 0
    ensures b.points == old(b.points)[u := 0] && b.referrals == old(b.referrals)[u := 0]
    ensures b.outbox == old(b.outbox) + [Outgoing(u, Welcome), Outgoing(u, Welcome)]
  {
    b.Start(u);
    ghost var once := b.points;
    b.Start(u);
    assert b.points == once;
  }

  /** A new user sends `/start`: one welcome, counters at zero. */
  method NewUserStarts(admin: UserId, u: UserId) returns (sent: seq<Outgoing>, points: map<UserId, int>, referrals: map<UserId, int>)
    ensures sent == [Outgoing(u, Welcome)]
    ensures points == map[u := 0] && referrals == map[u := 0]
  {
    var b := new Bot(admin);
    b.Start(u);
    sent, points, referrals := b.outbox, b.points, b.referrals;
  }

  /** A new user's first withdrawal command: the amount prompt, and the
      amount step waits for the user's next message. */
  method FirstCommand(admin: UserId, u: UserId, command: string) returns (b: Bot)
    requires !AllSpace(command)
    ensures fresh(b) && b.Valid() && b.adminId == admin
    ensures b.outbox == [Outgoing(u, AmountPrompt)]
    ensures b.dialogue == map[u := AwaitingAmount]
    ensures b.lastMessage == map[u := Normalize(command)]
  {
    b := new Bot(admin);
    NormalizeNonBlank(command);
    b.WithdrawPaws(u, command);
  }

  /** Answering the amount prompt with the numeral of an integer: an address
      prompt and a wait for the address when it is in 200..10000, otherwise a
      range error and the end of the dialogue. */
  method ReplyAmount(b: Bot, u: UserId, amount: int)
    requires b.Valid() && b.StateOf(u) == AwaitingAmount
    modifies b`dialogue, b`outbox
    ensures b.Valid()
    ensures InRange(amount) ==>
      b.outbox == old(b.outbox) + [Outgoing(u, AddressPrompt)] && b.dialogue == old(b.dialogue)[u := AwaitingAddress(amount)]
    ensures !InRange(amount) ==>
      b.outbox == old(b.outbox) + [Outgoing(u, RangeError)] && b.dialogue == old(b.dialogue)[u := Idle]
  {
    AcceptedNumeral(amount);
    var _ := b.HandleReply(u, Show(amount));
  }

  /** Answering the address prompt with a command and an address: the user's
      confirmation, then the admin's notification, both with the amount the
      dialogue carried, and the end of the dialogue. */
  method ReplyAddress(b: Bot, u: UserId, addressCommand: string, address: string)
    requires b.Valid() && b.StateOf(u).AwaitingAddress?
    requires IsToken(addressCommand) && IsToken(address)
    modifies b`dialogue, b`outbox
    ensures b.Valid()
    ensures var amount := old(b.StateOf(u)).amount;
      b.outbox == old(b.outbox) + [Outgoing(u, ConfirmUser(amount, address)), Outgoing(b.adminId, NotifyAdmin(u, amount, address))]
    ensures b.dialogue == old(b.dialogue)[u := Idle]
  {
    WalletAddressOfLine(addressCommand, address);
    var _ := b.HandleReply(u, addressCommand + " " + address);
  }

  /** Answering the address prompt with one word: a format error only, and
      the end of the dialogue. */
  method ReplyWord(b: Bot, u: UserId, word: string)
    requires b.Valid() && b.StateOf(u).AwaitingAddress?
    requires IsToken(word)
    modifies b`dialogue, b`outbox
    ensures b.Valid()
    ensures b.outbox == old(b.outbox) + [Outgoing(u, FormatError)]
    ensures b.dialogue == old(b.dialogue)[u := Idle]
  {
    WalletAddressOfWord(word);
    var _ := b.HandleReply(u, word);
  }

  /** A complete withdrawal by a new user: the command, then the amount as a
      numeral, then an address line of two tokens. The user gets the amount
      and address prompts and the confirmation, then the admin gets the
      request with the user's id, and the dialogue is over. */
  method WithdrawSucceeds(admin: UserId, u: UserId, command: string, amount: int, addressCommand: string, address: string)
    returns (sent: seq<Outgoing>, state: Dialogue)
    requires !AllSpace(command)
    requires InRange(amount)
    requires IsToken(addressCommand) && IsToken(address)
    ensures sent == [Outgoing(u, AmountPrompt), Outgoing(u, AddressPrompt),
                     Outgoing(u, ConfirmUser(amount, address)),
                     Outgoing(admin, NotifyAdmin(u, amount, address))]
    ensures state == Idle
  {
    var b := FirstCommand(admin, u, command);
    ReplyAmount(b, u, amount);
    ReplyAddress(b, u, addressCommand, address);
    sent, state := b.outbox, b.StateOf(u);
  }

  /** An amount outside 200..10000: a range error, no address prompt, and the
      dialogue is over. */
  method WithdrawOutOfRange(admin: UserId, u: UserId, command: string, amount: int)
    returns (sent: seq<Outgoing>, state: Dialogue)
    requires !AllSpace(command)
    requires !InRange(amount)
    ensures sent == [Outgoing(u, AmountPrompt), Outgoing(u, RangeError)]
    ensures state == Idle
  {
    var b := FirstCommand(admin, u, command);
    ReplyAmount(b, u, amount);
    sent, state := b.outbox, b.StateOf(u);
  }

  /** A reply to the amount prompt that is not an integer: a number error,
      and the dialogue is over. */
  method WithdrawNotANumber(admin: UserId, u: UserId, command: string, reply: string)
    returns (sent: seq<Outgoing>, state: Dialogue)
    requires !AllSpace(command)
    requires !IsIntLiteral(Strip(reply))
    ensures sent == [Outgoing(u, AmountPrompt), Outgoing(u, NumberError)]
    ensures state == Idle
  {
    var b := FirstCommand(admin, u, command);
    var _ := b.HandleReply(u, reply);
    sent, state := b.outbox, b.StateOf(u);
  }

  /** An accepted amount followed by a one-word address line: a format
      error, and neither a confirmation nor an admin notification. */
  method WithdrawSingleToken(admin: UserId, u: UserId, command: string, amount: int, word: string)
    returns (sent: seq<Outgoing>, state: Dialogue)
    requires !AllSpace(command)
    requires InRange(amount)
    requires IsToken(word)
    ensures sent == [Outgoing(u, AmountPrompt), Outgoing(u, AddressPrompt), Outgoing(u, FormatError)]
    ensures state == Idle
  {
    var b := FirstCommand(admin, u, command);
    ReplyAmount(b, u, amount);
    ReplyWord(b, u, word);
    sent, state := b.outbox, b.StateOf(u);
  }

  /** A retry after a failed amount step: the user answers the prompt with
      something that is not a number, then sends the same command again. The
      dialogue is over, so the command reaches the command handler, and the
      duplicate filter, which still holds the first command, rejects it. */
  method WithdrawRetryIsSpam(admin: UserId, u: UserId, command: string, reply: string)
    returns (sent: seq<Outgoing>, state: Dialogue)
    requires !AllSpace(command)
    requires !IsIntLiteral(Strip(reply))
    ensures sent == [Outgoing(u, AmountPrompt), Outgoing(u, NumberError), Outgoing(u, SpamWarning)]
    ensures state == Idle
  {
    var b := FirstCommand(admin, u, command);
    var _ := b.HandleReply(u, reply);
    assert b.lastMessage == map[u := Normalize(command)] && b.StateOf(u) == Idle;
    b.WithdrawPaws(u, command);
    sent, state := b.outbox, b.StateOf(u);
  }

  /** The replies of a dialogue are not recorded by the duplicate filter, so
      the same command after a completed withdrawal is still a duplicate of
      the first one: it gets only the spam warning. */
  method WithdrawAgainAfterSuccess(admin: UserId, u: UserId, command: string, amount: int, addressCommand: string, address: string)
    returns (last: Outgoing, state: Dialogue)
    requires !AllSpace(command)
    requires InRange(amount)
    requires IsToken(addressCommand) && IsToken(address)
    ensures last == Outgoing(u, SpamWarning)
    ensures state == Idle
  {
    var b := FirstCommand(admin, u, command);
    ReplyAmount(b, u, amount);
    ReplyAddress(b, u, addressCommand, address);
    assert b.lastMessage == map[u := Normalize(command)] && b.StateOf(u) == Idle;
    b.WithdrawPaws(u, command);
    last, state := b.outbox[|b.outbox| - 1], b.StateOf(u);
  }

  /** The numeral of an integer is judged by its value alone. */
  lemma AcceptedNumeral(a: int)
    ensures CheckAmount(Show(a)) == if InRange(a) then Accepted(a) else OutOfRange(a)
  {
    CheckAmountOfNumeral([], a, []);
    assert [] + Show(a) + [] == Show(a);
  }

  /** The numerals of the example conversations. */
  lemma ExampleNumerals()
    ensures Show(500) == "500" && Show(5000) == "5000" && Show(50) == "50"
  {
  }

  /** The amounts of the example conversations: "500" and "5000" are
      accepted, "50" is below the minimum. */
  lemma ExampleAmounts()
    ensures CheckAmount("500") == Accepted(500)
    ensures CheckAmount("5000") == Accepted(5000)
    ensures CheckAmount("50") == OutOfRange(50)
  {
    ExampleNumerals();
    AcceptedNumeral(500);
    AcceptedNumeral(5000);
    AcceptedNumeral(50);
  }

  /** The words of the example conversations are single tokens. */
  lemma ExampleTokens()
    ensures IsToken("/pawsaddress") && IsToken("XYZ123") && IsToken("onlyaddressnospace")
  {
  }

  /** The example address line is its two tokens joined by one space. */
  lemma ExampleLine()
    ensures Join(["/pawsaddress", "XYZ123"]) == "/pawsaddress XYZ123"
  {
  }

  /** The address line of the successful example gives the address "XYZ123". */
  lemma ExampleAddress()
    ensures WalletAddress("/pawsaddress XYZ123") == Some("XYZ123")
  {
    ExampleTokens();
    WalletAddressOfJoin(["/pawsaddress", "XYZ123"]);
    ExampleLine();
  }

  /** The one-word reply of the failing example gives no address. */
  lemma ExampleNoAddress()
    ensures WalletAddress("onlyaddressnospace") == None
  {
    ExampleTokens();
    WalletAddressOfWord("onlyaddressnospace");
  }

  /** The `/withdraw` command itself is not blank, so it is never a duplicate
      of a user's empty entry. */
  lemma ExampleCommand()
    ensures Normalize("/withdraw") != ""
  {
    assert !IsSpace("/withdraw"[0]);
    NormalizeNonBlank("/withdraw");
  }
}
