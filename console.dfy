/**
 * The console front end: printing each streamed event once per message id, truncating long
 * messages, and the confirmation loop that answers the graph's interrupts with the user's
 * replies. The graph, the keyboard and the terminal are parameters: the events and replies
 * come in as sequences and the printed lines go out as one.
 */
module Console {
  import opened Common
  import opened PyStrings

  const DefaultMaxLength: nat := 1500
  const TruncationMark: string := " ... (已截断)"
  const StatePrefix: string := "当前状态:  "

  /** A streamed message: whether it has an `id` attribute, its value, and `str` of its content. */
  datatype ConsoleMessage = ConsoleMessage(hasId: bool, id: Option<string>, text: string)

  /** The `messages` entry of an event: absent or falsy, a single message, or a list. */
  datatype MessagesField = NoMessages | Single(message: ConsoleMessage) | Many(messages: seq<ConsoleMessage>)

  /** A streamed event: its `dialog_state` list and its `messages` entry. */
  datatype Event = Event(dialogState: seq<string>, messages: MessagesField)

  /** What the console has printed and which message ids it remembers. */
  datatype Printout = Printout(lines: seq<string>, printed: set<Option<string>>)

  /** The truncation of `_print_event`. */
  function Truncate(s: string, maxLength: nat): (r: string)
    ensures |s| <= maxLength ==> r == s
    ensures |s| > maxLength ==> |r| == maxLength + |TruncationMark| && r[..maxLength] == s[..maxLength]
    ensures |s| > maxLength ==> EndsWith(r, TruncationMark)
  {
    if |s| > maxLength then s[..maxLength] + TruncationMark else s
  }

  /** The message `_print_event` looks at: the last one of a list, or the single one. */
  function Considered(f: MessagesField): (r: Option<ConsoleMessage>)
    ensures f.NoMessages? ==> r.None?
    ensures f.Single? ==> r == Some(f.message)
    ensures f.Many? ==> (r.None? <==> |f.messages| == 0)
    ensures f.Many? && |f.messages| > 0 ==> r == Some(f.messages[|f.messages| - 1])
  {
    match f
    case NoMessages => None
    case Single(m) => Some(m)
    case Many(ms) => if |ms| == 0 then None else Some(ms[|ms| - 1])
  }

  /** The message is printed: it has an id attribute whose value was not seen before. */
  predicate IsNew(m: ConsoleMessage, printed: set<Option<string>>)
  {
    m.hasId && m.id !in printed
  }

  /** The lines `_print_event` prints for an event and the ids it remembers afterwards. */
  function PrintOut(e: Event, printed: set<Option<string>>, maxLength: nat): Printout
  {
    var stateLines := if |e.dialogState| > 0 then [StatePrefix + e.dialogState[|e.dialogState| - 1]] else [];
    var m := Considered(e.messages);
    if m.Some? && IsNew(m.value, printed) then
      Printout(stateLines + [Truncate(m.value.text, maxLength)], printed + {m.value.id})
    else Printout(stateLines, printed)
  }

  /** Each event's lines follow the earlier ones; falsy results are skipped. */
  function Replay(events: seq<Option<Event>>, start: Printout, maxLength: nat): Printout
  {
    if |events| == 0 then start
    else
      var before := Replay(events[..|events| - 1], start, maxLength);
      var e := events[|events| - 1];
      if e.None? then before
      else
        var out := PrintOut(e.value, before.printed, maxLength);
        Printout(before.lines + out.lines, out.printed)
  }

  /** The console's memory of printed ids: `_printed`. */
  class Printer {
    var lines: seq<string>
    var printed: set<Option<string>>

    constructor()
      ensures lines == [] && printed == {}
    {
      lines := [];
      printed := {};
    }

    /** `_print_event(event, _printed, max_length)`. */
    method PrintEvent(e: Event, maxLength: nat)
      modifies this
      ensures Printout(lines, printed) ==
              var out := PrintOut(e, old(printed), maxLength); Printout(old(lines) + out.lines, out.printed)
    {
      if |e.dialogState| > 0 {
        lines := lines + [StatePrefix + e.dialogState[|e.dialogState| - 1]];
      }
      var message := Considered(e.messages);
      if message.Some? {
        var m := message.value;
        if m.hasId && m.id !in printed {
          var shown := m.text;
          if |shown| > maxLength {
            shown := shown[..maxLength] + TruncationMark;
          }
          lines := lines + [shown];
          printed := printed + {m.id};
        }
      }
    }

    /** Prints the next event of a replay, when it is truthy. */
    method PrintNext(events: seq<Option<Event>>, i: nat, ghost start: Printout)
      requires i < |events|
      requires Printout(lines, printed) == Replay(events[..i], start, DefaultMaxLength)
      modifies this
      ensures Printout(lines, printed) == Replay(events[..i + 1], start, DefaultMaxLength)
    {
      ReplayStep(events, i, start, DefaultMaxLength);
      if events[i].Some? {
        PrintEvent(events[i].value, DefaultMaxLength);
      }
    }

    /** `for event in events: _print_event(event, _printed)`, with falsy results skipped. */
    method PrintEvents(events: seq<Option<Event>>)
      modifies this
      ensures Printout(lines, printed) == Replay(events, Printout(old(lines), old(printed)), DefaultMaxLength)
    {
      var i := 0;
      while i < |events|
        invariant 0 <= i <= |events|
        invariant Printout(lines, printed) == Replay(events[..i], Printout(old(lines), old(printed)), DefaultMaxLength)
      {
        PrintNext(events, i, Printout(old(lines), old(printed)));
        i := i + 1;
      }
      assert events[..i] == events;
    }
  }

  /** Replaying one more event adds that event's printout, if it is truthy. */
  lemma ReplayStep(events: seq<Option<Event>>, i: nat, start: Printout, maxLength: nat)
    requires i < |events|
    ensures var before := Replay(events[..i], start, maxLength);
            Replay(events[..i + 1], start, maxLength) ==
              if events[i].None? then before
              else
                var out := PrintOut(events[i].value, before.printed, maxLength);
                Printout(before.lines + out.lines, out.printed)
  {
    assert events[..i + 1][..i] == events[..i];
  }

  /** A message is never printed twice: printing the same event again prints only its state. */
  lemma PrintedOnce(e: Event, printed: set<Option<string>>, maxLength: nat)
    ensures var first := PrintOut(e, printed, maxLength);
            var again := PrintOut(e, first.printed, maxLength);
            again.printed == first.printed
            && again.lines == (if |e.dialogState| > 0 then [StatePrefix + e.dialogState[|e.dialogState| - 1]] else [])
  {
  }

  /** A new message is printed in full up to the limit, and the remembered ids only grow. */
  lemma NewMessageIsShown(e: Event, printed: set<Option<string>>, maxLength: nat)
    requires Considered(e.messages).Some? && IsNew(Considered(e.messages).value, printed)
    ensures var out := PrintOut(e, printed, maxLength);
            var m := Considered(e.messages).value;
            |out.lines| >= 1 && out.lines[|out.lines| - 1] == Truncate(m.text, maxLength)
            && out.printed == printed + {m.id}
  {
  }

  /** In a list only the last message counts: the earlier ones are never printed. */
  lemma OnlyLastOfList(ms: seq<ConsoleMessage>, extra: ConsoleMessage, state: seq<string>, printed: set<Option<string>>, maxLength: nat)
    ensures PrintOut(Event(state, Many(ms + [extra])), printed, maxLength) == PrintOut(Event(state, Single(extra)), printed, maxLength)
  {
  }

  /**
   * A message whose `id` attribute is `None` is printed and `None` remembered, so no later
   * message with a `None` id is printed.
   */
  lemma NoneIdPrintedOnce(first: ConsoleMessage, later: Event, printed: set<Option<string>>, maxLength: nat)
    requires first.hasId && first.id.None? && None !in printed
    requires Considered(later.messages).Some? && Considered(later.messages).value.id.None?
    ensures var afterFirst := PrintOut(Event([], Single(first)), printed, maxLength).printed;
            !IsNew(Considered(later.messages).value, afterFirst)
  {
  }

  /** The remembered ids after a replay are the starting ones plus those of the messages printed. */
  lemma {:induction false} ReplayOnlyGrows(events: seq<Option<Event>>, start: Printout, maxLength: nat)
    ensures start.printed <= Replay(events, start, maxLength).printed
    ensures |start.lines| <= |Replay(events, start, maxLength).lines|
    ensures Replay(events, start, maxLength).lines[..|start.lines|] == start.lines
  {
    if |events| > 0 {
      ReplayOnlyGrows(events[..|events| - 1], start, maxLength);
    }
  }

  // ---------------------------------------------------------------------------
  // The confirmation loop of `main`

  /** What the loop sends back to the graph for one reply. */
  datatype Decision = Resume | Reject(message: string)

  const RejectPrefix: string := "操作被拒绝。原因: '"
  const RejectSuffix: string := "'. 请继续协助用户，考虑其反馈。"

  /** `s.lower() == "y"`: a single letter y in either case. */
  predicate IsYes(s: string)
  {
    |s| == 1 && LowerChar(s[0]) == 'y'
  }

  lemma IsYesIsLowerY(s: string)
    ensures IsYes(s) <==> ToLower(s) == "y"
  {
    if ToLower(s) == "y" {
      assert |s| == 1 && ToLower(s)[0] == 'y';
    }
  }

  /** The decision for one reply; `None` stands for `input` raising, which counts as "y". */
  function Decide(reply: Option<string>): (d: Decision)
    ensures reply.None? ==> d == Resume
    ensures reply.Some? ==> (d == Resume <==> IsYes(Trim(reply.value)))
    ensures d.Reject? ==> d.message == RejectPrefix + Trim(reply.value) + RejectSuffix
  {
    var userInput := if reply.Some? then Trim(reply.value) else "y";
    if IsYes(userInput) then Resume
    else Reject(RejectPrefix + userInput + RejectSuffix)
  }

  /** A capital "Y", with or without blanks around it, still confirms. */
  lemma CapitalYConfirms(reply: string)
    requires Trim(reply) == "Y"
    ensures Decide(Some(reply)) == Resume
  {
    assert LowerChar('Y') == 'y';
  }

  /** A reply confirms exactly when, stripped and lower-cased, it is "y". */
  lemma ConfirmsIffLowerY(reply: string)
    ensures Decide(Some(reply)) == Resume <==> ToLower(Trim(reply)) == "y"
  {
    IsYesIsLowerY(Trim(reply));
  }

  /** Any other reply rejects, and the message sent back quotes the reply without its blanks. */
  lemma OtherRepliesReject(reason: string)
    requires ToLower(Trim(reason)) != "y"
    ensures Decide(Some(reason)) == Reject(RejectPrefix + Trim(reason) + RejectSuffix)
  {
    IsYesIsLowerY(Trim(reason));
  }

  /** Whether `snapshot.next` is non-empty before round `i`: first the initial snapshot, then after each round. */
  function PendingBefore(initial: bool, after: seq<bool>, i: nat): bool
    requires i <= |after|
  {
    if i == 0 then initial else after[i - 1]
  }

  /**
   * `while snapshot.next`: one reply per round, each decision sent to the graph, each truthy
   * result printed. `after[i]` is whether the graph still waits after round `i`, and the
   * replies bound the number of rounds.
   */
  method ConfirmationLoop(p: Printer, initial: bool, replies: seq<Option<string>>, after: seq<bool>,
                          results: seq<Option<Event>>) returns (sent: seq<Decision>)
    requires |after| == |replies| == |results|
    modifies p
    ensures |sent| <= |replies|
    ensures forall i :: 0 <= i < |sent| ==> PendingBefore(initial, after, i) && sent[i] == Decide(replies[i])
    ensures |sent| < |replies| ==> !PendingBefore(initial, after, |sent|)
    ensures Printout(p.lines, p.printed) == Replay(results[..|sent|], Printout(old(p.lines), old(p.printed)), DefaultMaxLength)
  {
    sent := [];
    var pending := initial;
    var i := 0;
    while pending && i < |replies|
      invariant 0 <= i <= |replies| && |sent| == i
      invariant pending == PendingBefore(initial, after, i)
      invariant forall k :: 0 <= k < i ==> PendingBefore(initial, after, k) && sent[k] == Decide(replies[k])
      invariant Printout(p.lines, p.printed) == Replay(results[..i], Printout(old(p.lines), old(p.printed)), DefaultMaxLength)
    {
      var decision := Decide(replies[i]);
      sent := sent + [decision];
      p.PrintNext(results, i, Printout(old(p.lines), old(p.printed)));
      pending := after[i];
      i := i + 1;
    }
  }
}
