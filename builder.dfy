/**
 * ScrollCaptureResponse.Builder: a single-use builder. Each setter records its
 * field's bit in the builder's mask (Java's `long`, here eight bits);
 * build() marks the builder used, fills the defaults of the fields never
 * set and constructs the response; afterwards every setter and build()
 * throw IllegalStateException.
 *
 * The builder is specified by a pure step function, Apply, over BuilderState;
 * the Builder class is proved to follow it.
 */
module ScrollCaptureBuilder {
  import opened Wrappers
  import opened Parcels
  import opened ScrollCapture

  // Bits of mBuilderFieldsSet.
  const DESCRIPTION_SET: bv8 := 0x1
  const CONNECTION_SET: bv8 := 0x2
  const WINDOW_BOUNDS_SET: bv8 := 0x4
  const BOUNDS_IN_WINDOW_SET: bv8 := 0x8
  const WINDOW_TITLE_SET: bv8 := 0x10
  const MESSAGES_SET: bv8 := 0x20
  const USED: bv8 := 0x40

  /** The builder's fields; None stands for Java's null. */
  datatype BuilderState = BuilderState(
    fieldsSet: bv8,
    description: Option<string>,
    connection: Option<Connection>,
    windowBounds: Option<Rect>,
    boundsInWindow: Option<Rect>,
    windowTitle: Option<string>,
    messages: Option<seq<string>>)
  {
    predicate Used() {
      fieldsSet & USED != 0
    }

    /** What every reachable builder satisfies. */
    predicate WellFormed() {
      && (fieldsSet & DESCRIPTION_SET != 0 ==> description.Some?)
      && (fieldsSet & WINDOW_BOUNDS_SET != 0 ==> windowBounds.Some?)
      && (fieldsSet & BOUNDS_IN_WINDOW_SET != 0 ==> boundsInWindow.Some?)
      && (fieldsSet & WINDOW_TITLE_SET != 0 ==> windowTitle.Some?)
      && (fieldsSet & MESSAGES_SET != 0 ==> messages.Some?)
      && (!Used() ==> (messages.Some? <==> fieldsSet & MESSAGES_SET != 0))
      && (Used() ==> description.Some? && messages.Some?)
    }
  }

  /** A fresh `new Builder()`: nothing set, every field null. */
  function NewBuilder(): (b: BuilderState)
    ensures b.WellFormed() && !b.Used()
  {
    BuilderState(0, None, None, None, None, None, None)
  }

  /** One call on the builder. */
  datatype Call =
    | SetDescription(description: string)
    | SetConnection(connection: Option<Connection>)
    | SetWindowBounds(windowBounds: Rect)
    | SetBoundsInWindow(boundsInWindow: Rect)
    | SetWindowTitle(windowTitle: string)
    | SetMessages(messages: seq<string>)
    | AddMessage(message: string)
    | Build

  /** The mask bit a call records when it succeeds on an unused builder. */
  function CallBit(c: Call): bv8
  {
    match c
    case SetDescription(_) => DESCRIPTION_SET
    case SetConnection(_) => CONNECTION_SET
    case SetWindowBounds(_) => WINDOW_BOUNDS_SET
    case SetBoundsInWindow(_) => BOUNDS_IN_WINDOW_SET
    case SetWindowTitle(_) => WINDOW_TITLE_SET
    case SetMessages(_) => MESSAGES_SET
    case AddMessage(_) => MESSAGES_SET
    case Build => USED
  }

  /** What a call returns: normally, with the built response, or by throwing IllegalStateException. */
  datatype Outcome = Done | Built(response: Fields) | IllegalState

  datatype Step = Step(builder: BuilderState, outcome: Outcome)

  /** A setter: checkNotUsed, then record the bit and store the value. */
  function Set(b: BuilderState, bit: bv8, updated: BuilderState): Step
  {
    if b.Used() then Step(b, IllegalState)
    else Step(updated.(fieldsSet := b.fieldsSet | bit), Done)
  }

  /** The defaults build() gives the fields whose bit is clear. */
  function WithDefaults(b: BuilderState): (r: BuilderState)
    ensures r.fieldsSet == b.fieldsSet
    ensures b.WellFormed() ==> r.description.Some? && r.messages.Some?
    ensures b.WellFormed() && b.Used() ==> r.WellFormed()
    ensures b.fieldsSet & DESCRIPTION_SET != 0 ==> r.description == b.description
    ensures b.fieldsSet & CONNECTION_SET != 0 ==> r.connection == b.connection
    ensures b.fieldsSet & WINDOW_BOUNDS_SET != 0 ==> r.windowBounds == b.windowBounds
    ensures b.fieldsSet & BOUNDS_IN_WINDOW_SET != 0 ==> r.boundsInWindow == b.boundsInWindow
    ensures b.fieldsSet & WINDOW_TITLE_SET != 0 ==> r.windowTitle == b.windowTitle
    ensures b.fieldsSet & MESSAGES_SET != 0 ==> r.messages == b.messages
  {
    BuilderState(
      b.fieldsSet,
      if b.fieldsSet & DESCRIPTION_SET == 0 then Some("") else b.description,
      if b.fieldsSet & CONNECTION_SET == 0 then None else b.connection,
      if b.fieldsSet & WINDOW_BOUNDS_SET == 0 then None else b.windowBounds,
      if b.fieldsSet & BOUNDS_IN_WINDOW_SET == 0 then None else b.boundsInWindow,
      if b.fieldsSet & WINDOW_TITLE_SET == 0 then None else b.windowTitle,
      if b.fieldsSet & MESSAGES_SET == 0 then Some([]) else b.messages)
  }

  /** build() on an unused builder: mark used, fill defaults, construct. */
  function BuildStep(b: BuilderState): (r: Step)
    requires b.WellFormed() && !b.Used()
    ensures r.builder.WellFormed() && r.builder.Used() && r.outcome.Built?
  {
    var filled := WithDefaults(b.(fieldsSet := b.fieldsSet | USED));
    Step(filled, Built(Fields(filled.description.value, filled.connection, filled.windowBounds,
                              filled.boundsInWindow, filled.windowTitle, filled.messages.value)))
  }

  /** The effect of one call. */
  function Apply(b: BuilderState, c: Call): (r: Step)
    requires b.WellFormed()
    ensures r.builder.WellFormed()
  {
    match c
    case SetDescription(v) => Set(b, DESCRIPTION_SET, b.(description := Some(v)))
    case SetConnection(v) => Set(b, CONNECTION_SET, b.(connection := v))
    case SetWindowBounds(v) => Set(b, WINDOW_BOUNDS_SET, b.(windowBounds := Some(v)))
    case SetBoundsInWindow(v) => Set(b, BOUNDS_IN_WINDOW_SET, b.(boundsInWindow := Some(v)))
    case SetWindowTitle(v) => Set(b, WINDOW_TITLE_SET, b.(windowTitle := Some(v)))
    case SetMessages(v) => Set(b, MESSAGES_SET, b.(messages := Some(v)))
    case AddMessage(m) =>
      // a null list is first replaced through setMessages, which checks and records
      if b.messages.Some? then Step(b.(messages := Some(b.messages.value + [m])), Done)
      else if b.Used() then Step(b, IllegalState)
      else Step(b.(fieldsSet := b.fieldsSet | MESSAGES_SET, messages := Some([m])), Done)
    case Build =>
      if b.Used() then Step(b, IllegalState) else BuildStep(b)
  }

  /** checkNotUsed: on a used builder every call but addMessage throws and changes nothing. */
  lemma ApplyWhenUsed(b: BuilderState, c: Call)
    requires b.WellFormed() && b.Used() && !c.AddMessage?
    ensures Apply(b, c) == Step(b, IllegalState)
  {
  }

  /** On an unused builder no call throws, and each records its bit. */
  lemma ApplyWhenUnused(b: BuilderState, c: Call)
    requires b.WellFormed() && !b.Used()
    ensures Apply(b, c).outcome != IllegalState
    ensures Apply(b, c).builder.fieldsSet == b.fieldsSet | CallBit(c)
  {
    if c.AddMessage? && b.messages.Some? {
      MessagesBitKept(b.fieldsSet);
    }
  }

  lemma MessagesBitKept(x: bv8)
    requires x & MESSAGES_SET != 0
    ensures x | MESSAGES_SET == x
  {
  }

  /** Only build() marks a builder used, and nothing clears the mark. */
  lemma ApplyUsed(b: BuilderState, c: Call)
    requires b.WellFormed()
    ensures Apply(b, c).builder.Used() <==> b.Used() || c.Build?
  {
  }

  /** The builder after a sequence of calls. */
  function Run(b: BuilderState, calls: seq<Call>): (r: BuilderState)
    requires b.WellFormed()
    ensures r.WellFormed()
    ensures r.Used() <==> b.Used() || exists i :: 0 <= i < |calls| && calls[i].Build?
    decreases |calls|
  {
    if calls == [] then b
    else
      var prefix := calls[..|calls| - 1];
      var before := Run(b, prefix);
      var r := Apply(before, calls[|calls| - 1]).builder;
      ApplyUsed(before, calls[|calls| - 1]);
      assert forall i :: 0 <= i < |prefix| ==> prefix[i] == calls[i];
      r
  }

  /** The messages of the addMessage calls among calls, in order. */
  function AddedMessages(calls: seq<Call>): seq<string>
    decreases |calls|
  {
    if calls == [] then []
    else
      var last := calls[|calls| - 1];
      AddedMessages(calls[..|calls| - 1]) + (if last.AddMessage? then [last.message] else [])
  }

  /**
   * Single use: once build() has run, every setter and build() throws and
   * changes nothing; only addMessage still has an effect, appending to the
   * list the built response holds.
   */
  lemma {:induction false} AfterBuild(b: BuilderState, calls: seq<Call>)
    requires b.WellFormed() && b.Used()
    ensures Run(b, calls) == b.(messages := Some(b.messages.value + AddedMessages(calls)))
    ensures forall i :: 0 <= i < |calls| && !calls[i].AddMessage? ==>
              Apply(Run(b, calls[..i]), calls[i]).outcome == IllegalState
    decreases |calls|
  {
    if calls != [] {
      var prefix := calls[..|calls| - 1];
      var last := calls[|calls| - 1];
      AfterBuild(b, prefix);
      var bp := Run(b, prefix);
      assert Run(b, calls) == Apply(bp, last).builder;
      assert bp.Used() && bp.messages.Some?;
      if last.AddMessage? {
        assert Apply(bp, last).builder == bp.(messages := Some(bp.messages.value + [last.message]));
        assert b.messages.value + AddedMessages(calls)
            == b.messages.value + AddedMessages(prefix) + [last.message];
      } else {
        ApplyWhenUsed(bp, last);
        assert AddedMessages(calls) == AddedMessages(prefix);
      }
      forall i | 0 <= i < |calls| && !calls[i].AddMessage?
        ensures Apply(Run(b, calls[..i]), calls[i]).outcome == IllegalState
      {
        if i < |prefix| {
          assert calls[..i] == prefix[..i] && calls[i] == prefix[i];
        } else {
          assert calls[..i] == prefix;
        }
      }
    } else {
      assert b.messages.value + AddedMessages(calls) == b.messages.value;
    }
  }

  // The values a sequence of calls last gave each field (an independent
  // reading of "the last value set"; build() is not among these calls).

  function LastDescription(calls: seq<Call>): Option<string>
    decreases |calls|
  {
    if calls == [] then None
    else if calls[|calls| - 1].SetDescription? then Some(calls[|calls| - 1].description)
    else LastDescription(calls[..|calls| - 1])
  }

  function LastConnection(calls: seq<Call>): Option<Connection>
    decreases |calls|
  {
    if calls == [] then None
    else if calls[|calls| - 1].SetConnection? then calls[|calls| - 1].connection
    else LastConnection(calls[..|calls| - 1])
  }

  function LastWindowBounds(calls: seq<Call>): Option<Rect>
    decreases |calls|
  {
    if calls == [] then None
    else if calls[|calls| - 1].SetWindowBounds? then Some(calls[|calls| - 1].windowBounds)
    else LastWindowBounds(calls[..|calls| - 1])
  }

  function LastBoundsInWindow(calls: seq<Call>): Option<Rect>
    decreases |calls|
  {
    if calls == [] then None
    else if calls[|calls| - 1].SetBoundsInWindow? then Some(calls[|calls| - 1].boundsInWindow)
    else LastBoundsInWindow(calls[..|calls| - 1])
  }

  function LastWindowTitle(calls: seq<Call>): Option<string>
    decreases |calls|
  {
    if calls == [] then None
    else if calls[|calls| - 1].SetWindowTitle? then Some(calls[|calls| - 1].windowTitle)
    else LastWindowTitle(calls[..|calls| - 1])
  }

  /** The list after the last setMessages and the addMessage calls that followed it. */
  function LastMessages(calls: seq<Call>): seq<string>
    decreases |calls|
  {
    if calls == [] then []
    else
      var last := calls[|calls| - 1];
      if last.SetMessages? then last.messages
      else if last.AddMessage? then LastMessages(calls[..|calls| - 1]) + [last.message]
      else LastMessages(calls[..|calls| - 1])
  }

  /** The bits the calls record: the OR of their CallBit. */
  function RecordedBits(calls: seq<Call>): bv8
    decreases |calls|
  {
    if calls == [] then 0 else RecordedBits(calls[..|calls| - 1]) | CallBit(calls[|calls| - 1])
  }

  predicate NoBuild(calls: seq<Call>)
  {
    forall i :: 0 <= i < |calls| ==> !calls[i].Build?
  }

  /** The builder after calls without build(), stated field by field. */
  function Pending(calls: seq<Call>): (b: BuilderState)
    requires NoBuild(calls)
    ensures b.WellFormed() && !b.Used()
  {
    RecordedBitsMatch(calls);
    BuilderState(RecordedBits(calls), LastDescription(calls), LastConnection(calls),
                 LastWindowBounds(calls), LastBoundsInWindow(calls), LastWindowTitle(calls),
                 if RecordedBits(calls) & MESSAGES_SET != 0 then Some(LastMessages(calls)) else None)
  }

  /**
   * Setters record their bit: starting from a new builder, a field's bit is
   * set exactly when a call gave it a value (for the connection, which may be
   * set to null, a clear bit means it is still null), and build() has not run.
   */
  lemma {:induction false} RecordedBitsMatch(calls: seq<Call>)
    requires NoBuild(calls)
    ensures RecordedBits(calls) & USED == 0
    ensures (RecordedBits(calls) & DESCRIPTION_SET != 0) == LastDescription(calls).Some?
    ensures RecordedBits(calls) & CONNECTION_SET == 0 ==> LastConnection(calls).None?
    ensures (RecordedBits(calls) & WINDOW_BOUNDS_SET != 0) == LastWindowBounds(calls).Some?
    ensures (RecordedBits(calls) & BOUNDS_IN_WINDOW_SET != 0) == LastBoundsInWindow(calls).Some?
    ensures (RecordedBits(calls) & WINDOW_TITLE_SET != 0) == LastWindowTitle(calls).Some?
    ensures RecordedBits(calls) & MESSAGES_SET == 0 ==> LastMessages(calls) == []
    decreases |calls|
  {
    if calls != [] {
      var prefix := calls[..|calls| - 1];
      assert NoBuild(prefix) by {
        forall i | 0 <= i < |prefix| ensures !prefix[i].Build? { assert prefix[i] == calls[i]; }
      }
      RecordedBitsMatch(prefix);
    }
  }

  /** Running calls without build() on a new builder leaves it in Pending(calls). */
  lemma {:induction false} RunPending(calls: seq<Call>)
    requires NoBuild(calls)
    ensures Run(NewBuilder(), calls) == Pending(calls)
    decreases |calls|
  {
    if calls != [] {
      var prefix := calls[..|calls| - 1];
      assert NoBuild(prefix) by {
        forall i | 0 <= i < |prefix| ensures !prefix[i].Build? { assert prefix[i] == calls[i]; }
      }
      RunPending(prefix);
      PendingStep(prefix, calls[|calls| - 1]);
      assert prefix + [calls[|calls| - 1]] == calls;
    }
  }

  /** One more call (not build()) takes Pending of the calls so far to Pending of them all. */
  lemma PendingStep(prefix: seq<Call>, last: Call)
    requires NoBuild(prefix) && !last.Build?
    ensures NoBuild(prefix + [last])
    ensures Apply(Pending(prefix), last).builder == Pending(prefix + [last])
  {
    var calls := prefix + [last];
    assert calls[..|calls| - 1] == prefix && calls[|calls| - 1] == last;
    assert NoBuild(calls) by {
      forall i | 0 <= i < |calls| ensures !calls[i].Build? { if i < |prefix| { assert calls[i] == prefix[i]; } }
    }
    if last.AddMessage? {
      PendingStepAdd(prefix, last.message);
    } else {
      PendingStepSet(prefix, last);
    }
  }

  lemma PendingStepSet(prefix: seq<Call>, last: Call)
    requires NoBuild(prefix) && !last.Build? && !last.AddMessage?
    requires NoBuild(prefix + [last])
    ensures Apply(Pending(prefix), last).builder == Pending(prefix + [last])
  {
    var calls := prefix + [last];
    assert calls[..|calls| - 1] == prefix && calls[|calls| - 1] == last;
    var p := Pending(prefix);
    ApplyWhenUnused(p, last);
    assert RecordedBits(calls) & MESSAGES_SET != 0 <==> RecordedBits(prefix) & MESSAGES_SET != 0 || last.SetMessages?;
  }

  lemma PendingStepAdd(prefix: seq<Call>, m: string)
    requires NoBuild(prefix)
    requires NoBuild(prefix + [AddMessage(m)])
    ensures Apply(Pending(prefix), AddMessage(m)).builder == Pending(prefix + [AddMessage(m)])
  {
    var calls := prefix + [AddMessage(m)];
    assert calls[..|calls| - 1] == prefix && calls[|calls| - 1] == AddMessage(m);
    RecordedBitsMatch(prefix);
    var p := Pending(prefix);
    assert RecordedBits(calls) == p.fieldsSet | MESSAGES_SET;
    if p.messages.Some? {
      MessagesBitKept(p.fieldsSet);
      assert Apply(p, AddMessage(m)).builder == p.(messages := Some(LastMessages(prefix) + [m]));
    } else {
      assert LastMessages(calls) == [] + [m] == [m];
      assert Apply(p, AddMessage(m)).builder == p.(fieldsSet := p.fieldsSet | MESSAGES_SET, messages := Some([m]));
    }
  }

  /**
   * The built response carries exactly the values last set, and the defaults
   * ("" for the description, null, the empty list) for the fields never set.
   */
  lemma BuildCarriesLastSet(calls: seq<Call>)
    requires NoBuild(calls)
    ensures Run(NewBuilder(), calls).fieldsSet == RecordedBits(calls)
    ensures Apply(Run(NewBuilder(), calls), Build).outcome
         == Built(Fields(LastDescription(calls).GetOr(""), LastConnection(calls), LastWindowBounds(calls),
                         LastBoundsInWindow(calls), LastWindowTitle(calls), LastMessages(calls)))
  {
    RunPending(calls);
    RecordedBitsMatch(calls);
  }

  /** build() on a new builder gives the all-default response. */
  lemma BuildDefaults()
    ensures Apply(NewBuilder(), Build).outcome == Built(Fields("", None, None, None, None, []))
  {
    BuildCarriesLastSet([]);
  }

  /**
   * The builder does not keep the promise that the remaining fields are
   * non-null while connected: a response can carry a connection with no
   * bounds and no title.
   */
  lemma ConnectedWithoutBounds(c: Connection)
    ensures Apply(Run(NewBuilder(), [SetConnection(Some(c))]), Build).outcome
         == Built(Fields("", Some(c), None, None, None, []))
  {
    var calls := [SetConnection(Some(c))];
    assert calls[..0] == [];
    assert LastConnection(calls) == Some(c);
    BuildCarriesLastSet(calls);
  }

  /** The builder object; mMessages is shared by reference with the caller and the built response. */
  class Builder {
    var fieldsSet: bv8
    var description: Option<string>
    var connection: Option<Connection>
    var windowBounds: Option<Rect>
    var boundsInWindow: Option<Rect>
    var windowTitle: Option<string>
    var messages: MessageList?

    function State(): BuilderState
      reads this, messages
    {
      BuilderState(fieldsSet, description, connection, windowBounds, boundsInWindow, windowTitle,
                   if messages == null then None else Some(messages.items))
    }

    ghost predicate Valid()
      reads this, messages
    {
      State().WellFormed()
    }

    constructor ()
      ensures Valid() && State() == NewBuilder()
    {
      fieldsSet := 0;
      description, connection, windowBounds, boundsInWindow, windowTitle := None, None, None, None, None;
      messages := null;
    }

    /** Throws (IllegalState) when build() has already run. */
    method CheckNotUsed() returns (outcome: Outcome)
      ensures outcome == (if State().Used() then IllegalState else Done)
    {
      outcome := if fieldsSet & USED != 0 then IllegalState else Done;
    }

    method SetDescription(value: string) returns (outcome: Outcome)
      requires Valid()
      modifies this
      ensures Valid() && messages == old(messages)
      ensures Step(State(), outcome) == Apply(old(State()), Call.SetDescription(value))
    {
      outcome := CheckNotUsed();
      if outcome.IllegalState? { return; }
      fieldsSet := fieldsSet | DESCRIPTION_SET;
      description := Some(value);
    }

    method SetConnection(value: Option<Connection>) returns (outcome: Outcome)
      requires Valid()
      modifies this
      ensures Valid() && messages == old(messages)
      ensures Step(State(), outcome) == Apply(old(State()), Call.SetConnection(value))
    {
      outcome := CheckNotUsed();
      if outcome.IllegalState? { return; }
      fieldsSet := fieldsSet | CONNECTION_SET;
      connection := value;
    }

    method SetWindowBounds(value: Rect) returns (outcome: Outcome)
      requires Valid()
      modifies this
      ensures Valid() && messages == old(messages)
      ensures Step(State(), outcome) == Apply(old(State()), Call.SetWindowBounds(value))
    {
      outcome := CheckNotUsed();
      if outcome.IllegalState? { return; }
      fieldsSet := fieldsSet | WINDOW_BOUNDS_SET;
      windowBounds := Some(value);
    }

    method SetBoundsInWindow(value: Rect) returns (outcome: Outcome)
      requires Valid()
      modifies this
      ensures Valid() && messages == old(messages)
      ensures Step(State(), outcome) == Apply(old(State()), Call.SetBoundsInWindow(value))
    {
      outcome := CheckNotUsed();
      if outcome.IllegalState? { return; }
      fieldsSet := fieldsSet | BOUNDS_IN_WINDOW_SET;
      boundsInWindow := Some(value);
    }

    method SetWindowTitle(value: string) returns (outcome: Outcome)
      requires Valid()
      modifies this
      ensures Valid() && messages == old(messages)
      ensures Step(State(), outcome) == Apply(old(State()), Call.SetWindowTitle(value))
    {
      outcome := CheckNotUsed();
      if outcome.IllegalState? { return; }
      fieldsSet := fieldsSet | WINDOW_TITLE_SET;
      windowTitle := Some(value);
    }

    /** Keeps the caller's list by reference. */
    method SetMessages(value: MessageList) returns (outcome: Outcome)
      requires Valid()
      modifies this
      ensures Valid()
      ensures Step(State(), outcome) == Apply(old(State()), Call.SetMessages(value.items))
      ensures outcome == Done ==> messages == value
      ensures outcome == IllegalState ==> messages == old(messages)
    {
      outcome := CheckNotUsed();
      if outcome.IllegalState? { return; }
      fieldsSet := fieldsSet | MESSAGES_SET;
      messages := value;
    }

    /** Appends in place to the list the builder holds, creating it through setMessages if null. */
    method AddMessage(value: string) returns (outcome: Outcome)
      requires Valid()
      modifies this, messages
      ensures Valid()
      ensures Step(State(), outcome) == Apply(old(State()), Call.AddMessage(value))
      ensures old(messages) != null ==> messages == old(messages)
      ensures old(messages) == null && outcome == Done ==> fresh(messages)
    {
      ghost var before := State();
      if messages == null {
        var list := new MessageList([]);
        outcome := SetMessages(list);
        if outcome.IllegalState? { return; }
        assert State() == before.(fieldsSet := before.fieldsSet | MESSAGES_SET, messages := Some([]));
      }
      ghost var mid := State();
      messages.Add(value);
      outcome := Done;
      assert State() == mid.(messages := Some(mid.messages.value + [value]));
      if before.messages.None? {
        assert mid.messages.value + [value] == [value];
        assert Apply(before, Call.AddMessage(value))
            == Step(before.(fieldsSet := before.fieldsSet | MESSAGES_SET, messages := Some([value])), Done);
      } else {
        assert mid == before;
      }
    }

    /** The defaults build() assigns to the fields never set. */
    method FillDefaults()
      modifies this
      ensures State() == WithDefaults(old(State()))
      ensures fieldsSet == old(fieldsSet)
      ensures old(fieldsSet) & MESSAGES_SET == 0 ==> fresh(messages)
      ensures old(fieldsSet) & MESSAGES_SET != 0 ==> messages == old(messages)
    {
      if fieldsSet & DESCRIPTION_SET == 0 { description := Some(""); }
      if fieldsSet & CONNECTION_SET == 0 { connection := None; }
      if fieldsSet & WINDOW_BOUNDS_SET == 0 { windowBounds := None; }
      if fieldsSet & BOUNDS_IN_WINDOW_SET == 0 { boundsInWindow := None; }
      if fieldsSet & WINDOW_TITLE_SET == 0 { windowTitle := None; }
      if fieldsSet & MESSAGES_SET == 0 { messages := new MessageList([]); }
    }

    /**
     * build(): null when the builder was already used; otherwise a fresh
     * response that shares the builder's message list.
     */
    method Build() returns (r: ScrollCaptureResponse?)
      requires Valid()
      modifies this
      ensures Valid()
      ensures old(State()).Used() ==> r == null && State() == old(State()) && messages == old(messages)
      ensures !old(State()).Used() ==>
                && r != null && fresh(r)
                && Step(State(), Built(r.Value())) == Apply(old(State()), Call.Build)
                && r.messages == messages
                && (old(messages) == null ==> fresh(messages))
                && (old(messages) != null ==> messages == old(messages))
    {
      var outcome := CheckNotUsed();
      if outcome.IllegalState? { return null; }
      fieldsSet := fieldsSet | USED;
      FillDefaults();
      r := new ScrollCaptureResponse(description.value, connection, windowBounds, boundsInWindow,
                                     windowTitle, messages);
    }
  }
}
