/**
 The bot's per-user bookkeeping (main.py): the duplicate-message filter, user
 registration by `/start`, and the three-step `/withdraw` dialogue.

 The source keeps its state in module-level dictionaries and lets the bot
 framework remember, per chat, which function should receive the next
 message. Here the state is one `Bot` object: the dictionaries become maps,
 the pending next-step function becomes an explicit `Dialogue` per user, and
 every `bot.send_message(chat, text)` appends one `Outgoing` record, naming the
 kind of message (and what it reports) instead of its Markdown text.
 */
module PawsBot {
  import opened Wrappers
  import opened Text
  import opened Decimal
  import opened Withdrawal

  /** A Telegram chat id. */
  type UserId = int

  /** Where a user is in the withdrawal dialogue: which handler, if any, the
      next message from that user is bound to. `AwaitingAddress` carries the
      amount the address step closes over. */
  datatype Dialogue = Idle | AwaitingAmount | AwaitingAddress(amount: int)

  /** The kinds of message the bot sends, with what each one reports. */
  datatype MessageKind =
    | Welcome
    | SpamWarning
    | AmountPrompt
    | RangeError
    | NumberError
    | AddressPrompt
    | ConfirmUser(amount: int, wallet: string)
    | NotifyAdmin(user: UserId, amount: int, wallet: string)
    | FormatError

  datatype Outgoing = Outgoing(to: UserId, kind: MessageKind)

  /** The stored last message of a user; a user never seen compares as `""`. */
  function LastOf(last: map<UserId, string>, u: UserId): string {
    if u in last then last[u] else ""
  }

  /** The one message the amount step sends for each outcome. */
  function AmountReply(c: AmountCheck): MessageKind {
    match c
    case NotANumber => NumberError
    case OutOfRange(_) => RangeError
    case Accepted(_) => AddressPrompt
  }

  /** The state the amount step leaves: the address step is bound to the
      user's next message only when the amount was accepted. */
  function AfterAmount(c: AmountCheck): Dialogue {
    if c.Accepted? then AwaitingAddress(c.amount) else Idle
  }

  /** The amount step sends an address prompt and waits for an address exactly
      when the stripped reply is an integer in 200..10000; a reply that is not
      an integer gets a number error, an integer out of range a range error,
      and both end the dialogue. */
  lemma AmountStepOutcome(text: string)
    ensures AfterAmount(CheckAmount(text)).AwaitingAddress?
        <==> ParseInt(Strip(text)).Some? && InRange(ParseInt(Strip(text)).value)
    ensures AfterAmount(CheckAmount(text)).AwaitingAddress? ==>
        AfterAmount(CheckAmount(text)).amount == ParseInt(Strip(text)).value
    ensures AfterAmount(CheckAmount(text)) != AwaitingAmount
    ensures (AmountReply(CheckAmount(text)) == AddressPrompt) <==> AfterAmount(CheckAmount(text)).AwaitingAddress?
    ensures (AmountReply(CheckAmount(text)) == NumberError) <==> ParseInt(Strip(text)).None?
    ensures (AmountReply(CheckAmount(text)) == RangeError)
        <==> ParseInt(Strip(text)).Some? && !InRange(ParseInt(Strip(text)).value)
  {
  }

  /** The messages the address step sends: a confirmation to the user, then
      a notification to the admin, when the reply has an address; otherwise
      only a format error to the user. */
  function ConfirmReplies(admin: UserId, u: UserId, amount: int, text: string): seq<Outgoing> {
    match WalletAddress(text)
    case Some(w) => [Outgoing(u, ConfirmUser(amount, w)), Outgoing(admin, NotifyAdmin(u, amount, w))]
    case None => [Outgoing(u, FormatError)]
  }

  /** The address step reports exactly the second token of the reply, to the
      user first and to the admin second, and needs at least two tokens; with
      fewer, the admin hears nothing. */
  lemma ConfirmRepliesOutcome(admin: UserId, u: UserId, amount: int, text: string)
    ensures var r := ConfirmReplies(admin, u, amount, text);
      if |Split(text)| >= 2 then
        r == [Outgoing(u, ConfirmUser(amount, Split(text)[1])),
              Outgoing(admin, NotifyAdmin(u, amount, Split(text)[1]))]
        && IsToken(Split(text)[1])
      else
        r == [Outgoing(u, FormatError)]
  {
  }

  class Bot {
    /** The admin chat that receives withdrawal requests. */
    const adminId: UserId
    /** `user_points` and `user_referrals`. */
    var points: map<UserId, int>
    var referrals: map<UserId, int>
    /** `user_last_message`: the normalised text of the last `/withdraw` message. */
    var lastMessage: map<UserId, string>
    /** The pending next-step handler of each user; absent means `Idle`. */
    var dialogue: map<UserId, Dialogue>
    /** Every message sent so far, in order. */
    var outbox: seq<Outgoing>

    /** A user's registration creates both counters together, nothing ever
        credits or debits them, and an address is only awaited for an amount
        that passed the range check. */
    ghost predicate Valid()
      reads this
    {
      && points.Keys == referrals.Keys
      && (forall u :: u in points ==> points[u] == 0)
      && (forall u :: u in referrals ==> referrals[u] == 0)
      && (forall u :: u in dialogue && dialogue[u].AwaitingAddress? ==> InRange(dialogue[u].amount))
    }

    function StateOf(u: UserId): Dialogue
      reads this
    {
      if u in dialogue then dialogue[u] else Idle
    }

    constructor (admin: UserId)
      ensures Valid()
      ensures adminId == admin
      ensures points == map[] && referrals == map[] && lastMessage == map[]
      ensures dialogue == map[] && outbox == []
    {
      adminId := admin;
      points, referrals, lastMessage := map[], map[], map[];
      dialogue, outbox := map[], [];
    }

    /** `is_spam`: the message is a duplicate when its normal form equals the
        stored one (absent: `""`); the stored entry becomes the new normal
        form whatever the answer. */
    method IsSpam(u: UserId, text: string) returns (spam: bool)
      modifies this`lastMessage
      ensures spam <==> LastOf(old(lastMessage), u) == Normalize(text)
      ensures lastMessage == old(lastMessage)[u := Normalize(text)]
    {
      var last := if u in lastMessage then lastMessage[u] else "";
      lastMessage := lastMessage[u := Normalize(text)];
      spam := last == Normalize(text);
    }

    /** `start`: registers a new user with zero points and referrals, leaves a
        known user's counters alone, and always sends the welcome message. */
    method Start(u: UserId)
      requires Valid()
      modifies this`points, this`referrals, this`outbox
      ensures Valid()
      ensures u !in old(points) ==> points == old(points)[u := 0] && referrals == old(referrals)[u := 0]
      ensures u in old(points) ==> points == old(points) && referrals == old(referrals)
      ensures points.Keys == old(points.Keys) + {u}
      ensures outbox == old(outbox) + [Outgoing(u, Welcome)]
    {
      if u !in points {
        points := points[u := 0];
        referrals := referrals[u := 0];
      }
      outbox := outbox + [Outgoing(u, Welcome)];
    }

    /** `withdraw_paws`: a duplicate gets only a spam warning and leaves the
        dialogue as it was; otherwise the user is asked for an amount and the
        amount step is bound to the user's next message. */
    method WithdrawPaws(u: UserId, text: string)
      requires Valid()
      modifies this`lastMessage, this`dialogue, this`outbox
      ensures Valid()
      ensures lastMessage == old(lastMessage)[u := Normalize(text)]
      ensures LastOf(old(lastMessage), u) == Normalize(text) ==>
        outbox == old(outbox) + [Outgoing(u, SpamWarning)] && dialogue == old(dialogue)
      ensures LastOf(old(lastMessage), u) != Normalize(text) ==>
        outbox == old(outbox) + [Outgoing(u, AmountPrompt)] && dialogue == old(dialogue)[u := AwaitingAmount]
    {
      var spam := IsSpam(u, text);
      if spam {
        outbox := outbox + [Outgoing(u, SpamWarning)];
        return;
      }
      outbox := outbox + [Outgoing(u, AmountPrompt)];
      dialogue := dialogue[u := AwaitingAmount];
    }

    /** `process_withdraw`: the amount step. It sends one message and either
        binds the address step, carrying the accepted amount, or ends the
        dialogue. */
    method ProcessWithdraw(u: UserId, text: string)
      requires Valid()
      modifies this`dialogue, this`outbox
      ensures Valid()
      ensures outbox == old(outbox) + [Outgoing(u, AmountReply(CheckAmount(text)))]
      ensures dialogue == old(dialogue)[u := AfterAmount(CheckAmount(text))]
    {
      var check := CheckAmount(text);
      match check {
        case Accepted(amount) =>
          outbox := outbox + [Outgoing(u, AddressPrompt)];
          dialogue := dialogue[u := AwaitingAddress(amount)];
        case OutOfRange(_) =>
          outbox := outbox + [Outgoing(u, RangeError)];
          dialogue := dialogue[u := Idle];
        case NotANumber =>
          outbox := outbox + [Outgoing(u, NumberError)];
          dialogue := dialogue[u := Idle];
      }
    }

    /** `confirm_withdraw`: the address step, for the amount the amount step
        accepted. It ends the dialogue either way. */
    method ConfirmWithdraw(u: UserId, text: string, amount: int)
      requires Valid()
      modifies this`dialogue, this`outbox
      ensures Valid()
      ensures outbox == old(outbox) + ConfirmReplies(adminId, u, amount, text)
      ensures dialogue == old(dialogue)[u := Idle]
    {
      var parts := Split(text);
      if |parts| < 2 {
        outbox := outbox + [Outgoing(u, FormatError)];
      } else {
        var address := parts[1];
        outbox := outbox + [Outgoing(u, ConfirmUser(amount, address))];
        outbox := outbox + [Outgoing(adminId, NotifyAdmin(u, amount, address))];
      }
      dialogue := dialogue[u := Idle];
    }

    /** Delivery of a user's next message to the handler bound to it, if any:
        the amount step while an amount is awaited, the address step (with the
        amount it carries) while an address is awaited. With nothing bound the
        message is not consumed and nothing changes. */
    method HandleReply(u: UserId, text: string) returns (consumed: bool)
      requires Valid()
      modifies this`dialogue, this`outbox
      ensures Valid()
      ensures consumed <==> old(StateOf(u)) != Idle
      ensures old(StateOf(u)) == Idle ==> dialogue == old(dialogue) && outbox == old(outbox)
      ensures old(StateOf(u)) == AwaitingAmount ==>
        && outbox == old(outbox) + [Outgoing(u, AmountReply(CheckAmount(text)))]
        && dialogue == old(dialogue)[u := AfterAmount(CheckAmount(text))]
      ensures old(StateOf(u)).AwaitingAddress? ==>
        && InRange(old(StateOf(u)).amount)
        && outbox == old(outbox) + ConfirmReplies(adminId, u, old(StateOf(u)).amount, text)
        && dialogue == old(dialogue)[u := Idle]
    {
      var state := StateOf(u);
      match state {
        case Idle =>
          consumed := false;
        case AwaitingAmount =>
          ProcessWithdraw(u, text);
          consumed := true;
        case AwaitingAddress(amount) =>
          ConfirmWithdraw(u, text, amount);
          consumed := true;
      }
    }
  }
}
