/**
  The message input box: the text being composed, the `isTyping` flag and the pending stop timer,
  driven by changes, the timer firing, submits and key presses. Every callback the component makes
  to its parent is appended to `calls`. The 2000 ms timer is a `TimerFires` event; only whether one
  is pending is kept.
*/
module MessageInput {
  import opened JsString

  /** The input's `maxLength`, in UTF-16 code units. */
  const MaxInputLength := 2000

  /** A call from the input to its parent. */
  datatype Callback = TypingStarted | TypingStopped | Sent(content: string)

  predicate IsToggle(c: Callback) { c.TypingStarted? || c.TypingStopped? }

  /** The position of the last start or stop call, or -1 when there is none. */
  function LastToggle(calls: seq<Callback>): (k: int)
    ensures -1 <= k < |calls|
    ensures k >= 0 ==> IsToggle(calls[k])
    ensures forall m :: k < m < |calls| ==> !IsToggle(calls[m])
  {
    if calls == [] then -1
    else if IsToggle(calls[|calls| - 1]) then |calls| - 1
    else LastToggle(calls[..|calls| - 1])
  }

  /** Whether, after `calls`, a typing burst is open: the last start or stop call was a start. */
  predicate BurstOpen(calls: seq<Callback>)
  {
    LastToggle(calls) >= 0 && calls[LastToggle(calls)] == TypingStarted
  }

  /** Every `onTypingStart` call is made while no burst is open: one start per burst. */
  ghost predicate OneStartPerBurst(calls: seq<Callback>)
  {
    forall j :: 0 <= j < |calls| && calls[j] == TypingStarted ==> !BurstOpen(calls[..j])
  }

  /** A start made while no burst is open keeps one start per burst, and opens a burst. */
  lemma {:induction false} AppendStart(calls: seq<Callback>)
    requires OneStartPerBurst(calls) && !BurstOpen(calls)
    ensures OneStartPerBurst(calls + [TypingStarted]) && BurstOpen(calls + [TypingStarted])
  {
    var c := calls + [TypingStarted];
    assert c[..|calls|] == calls;
    assert forall j :: 0 <= j < |calls| ==> c[..j] == calls[..j];
  }

  /** Any call but a start keeps one start per burst; a stop closes the burst and a send leaves it as it was. */
  lemma {:induction false} AppendOther(calls: seq<Callback>, x: Callback)
    requires OneStartPerBurst(calls) && !x.TypingStarted?
    ensures OneStartPerBurst(calls + [x])
    ensures x.TypingStopped? ==> !BurstOpen(calls + [x])
    ensures x.Sent? ==> BurstOpen(calls + [x]) == BurstOpen(calls)
  {
    var c := calls + [x];
    assert c[..|calls|] == calls;
    assert forall j :: 0 <= j < |calls| ==> c[..j] == calls[..j];
  }

  /** The first start after position `i`, up to and including `j`. */
  function FirstStartAfter(calls: seq<Callback>, i: nat, j: nat): (k: nat)
    requires i < j < |calls| && calls[j] == TypingStarted
    ensures i < k <= j && calls[k] == TypingStarted
    ensures forall m :: i < m < k ==> calls[m] != TypingStarted
    decreases j - i
  {
    if calls[i + 1] == TypingStarted then i + 1
    else if i + 1 == j then j
    else FirstStartAfter(calls, i + 1, j)
  }

  /** Between any two `onTypingStart` calls there is an `onTypingStop` call. */
  lemma {:induction false} StopBetweenStarts(calls: seq<Callback>, i: nat, j: nat)
    requires OneStartPerBurst(calls)
    requires i < j < |calls| && calls[i] == TypingStarted && calls[j] == TypingStarted
    ensures exists k :: i < k < j && calls[k] == TypingStopped
  {
    var first := FirstStartAfter(calls, i, j);
    var before := calls[..first];
    assert !BurstOpen(before);
    assert before[i] == TypingStarted;
    var k := LastToggle(before);
    assert i <= k;
    assert calls[k] == before[k] == TypingStopped;
  }

  /** The component's state. */
  class Composer {
    var text: string
    var isTyping: bool
    var timerPending: bool
    var calls: seq<Callback>

    /**
      The flag and the timer move together, the flag says whether a burst is open, every start
      opens a new burst, and the text fits the input.
    */
    ghost predicate Valid()
      reads this
    {
      && isTyping == timerPending
      && isTyping == BurstOpen(calls)
      && OneStartPerBurst(calls)
      && Utf16Length(text) <= MaxInputLength
    }

    /** The component as mounted: empty, not typing, no timer. */
    constructor ()
      ensures Valid()
      ensures text == "" && !isTyping && !timerPending && calls == []
    {
      text := "";
      isTyping := false;
      timerPending := false;
      calls := [];
    }

    /**
      `handleChange`: the input's value becomes `value` (the browser keeps it within `maxLength`);
      the first change of a burst calls `onTypingStart`; the pending timer is replaced by a new one.
    */
    method Change(value: string)
      requires Valid()
      requires Utf16Length(value) <= MaxInputLength
      modifies this
      ensures Valid()
      ensures text == value && isTyping && timerPending
      ensures calls == old(calls) + (if old(isTyping) then [] else [TypingStarted])
    {
      text := value;
      if !isTyping {
        AppendStart(calls);
        isTyping := true;
        calls := calls + [TypingStarted];
      }
      timerPending := true;
    }

    /** The stop timer fires: the burst ends with `onTypingStop`. */
    method TimerFires()
      requires Valid() && timerPending
      modifies this
      ensures Valid()
      ensures !isTyping && !timerPending && text == old(text)
      ensures calls == old(calls) + [TypingStopped]
    {
      AppendOther(calls, TypingStopped);
      isTyping := false;
      timerPending := false;
      calls := calls + [TypingStopped];
    }

    /**
      `handleSubmit`: whitespace-only text changes nothing; otherwise the trimmed text is sent, the
      input cleared, the timer cancelled and `onTypingStop` called, whether or not a burst was open.
    */
    method Submit()
      requires Valid()
      modifies this
      ensures Valid()
      ensures IsBlank(old(text)) ==>
        text == old(text) && calls == old(calls) && isTyping == old(isTyping) && timerPending == old(timerPending)
      ensures !IsBlank(old(text)) ==>
        && text == "" && !isTyping && !timerPending
        && calls == old(calls) + [Sent(Trim(old(text))), TypingStopped]
    {
      if !IsBlank(text) {
        var content := Trim(text);
        var sent := calls + [Sent(content)];
        AppendOther(calls, Sent(content));
        AppendOther(sent, TypingStopped);
        calls := sent + [TypingStopped];
        text := "";
        timerPending := false;
        isTyping := false;
      }
    }

    /** `handleKeyPress`: Enter without Shift submits; any other key does nothing. */
    method KeyPress(key: string, shift: bool)
      requires Valid()
      modifies this
      ensures Valid()
      ensures !(key == "Enter" && !shift) ==>
        text == old(text) && calls == old(calls) && isTyping == old(isTyping) && timerPending == old(timerPending)
      ensures key == "Enter" && !shift && IsBlank(old(text)) ==>
        text == old(text) && calls == old(calls) && isTyping == old(isTyping) && timerPending == old(timerPending)
      ensures key == "Enter" && !shift && !IsBlank(old(text)) ==>
        && text == "" && !isTyping && !timerPending
        && calls == old(calls) + [Sent(Trim(old(text))), TypingStopped]
    {
      if key == "Enter" && !shift {
        Submit();
      }
    }
  }

  /** The send button is disabled exactly when the text is empty once trimmed. */
  function SendDisabled(text: string): (disabled: bool)
    ensures disabled <==> IsBlank(text)
  {
    TrimEmptyIffBlank(text);
    Trim(text) == ""
  }

  /**
    Text typed and then left idle until the stop timer fires makes the submit call `onTypingStop` a
    second time, with no start in between.
  */
  method StopTwiceScenario(typed: string) returns (calls: seq<Callback>)
    requires !IsBlank(typed) && Utf16Length(typed) <= MaxInputLength
    ensures calls == [TypingStarted, TypingStopped, Sent(Trim(typed)), TypingStopped]
  {
    var input := new Composer();
    input.Change(typed);
    assert input.calls == [TypingStarted];
    input.TimerFires();
    assert input.calls == [TypingStarted, TypingStopped];
    input.Submit();
    calls := input.calls;
  }
}
