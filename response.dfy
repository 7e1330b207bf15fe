/**
 * android.view.ScrollCaptureResponse: the result of a scroll-capture request,
 * its Parcel layout (a presence-flag byte, the description, the non-null
 * optional fields, the message list) and the lifecycle of its connection.
 */
module ScrollCapture {
  import opened Wrappers
  import opened Parcels

  /** An IScrollCaptureConnection, identified by its binder handle. */
  datatype Connection = Connection(binder: nat)

  /** The values of a response's six fields; None stands for Java's null. */
  datatype Fields = Fields(
    description: string,
    connection: Option<Connection>,
    windowBounds: Option<Rect>,
    boundsInWindow: Option<Rect>,
    windowTitle: Option<string>,
    messages: seq<string>)

  // Presence bits of the flag byte written ahead of the fields.
  const CONNECTION_BIT: bv8 := 0x2
  const WINDOW_BOUNDS_BIT: bv8 := 0x4
  const BOUNDS_IN_WINDOW_BIT: bv8 := 0x8
  const WINDOW_TITLE_BIT: bv8 := 0x10

  /** The flag byte writeToParcel computes: one bit per non-null optional field. */
  function FlagByte(f: Fields): (flg: bv8)
    ensures (flg & CONNECTION_BIT != 0) == f.connection.Some?
    ensures (flg & WINDOW_BOUNDS_BIT != 0) == f.windowBounds.Some?
    ensures (flg & BOUNDS_IN_WINDOW_BIT != 0) == f.boundsInWindow.Some?
    ensures (flg & WINDOW_TITLE_BIT != 0) == f.windowTitle.Some?
    ensures flg & 0xE1 == 0
  {
    (if f.connection.Some? then CONNECTION_BIT else 0)
    | (if f.windowBounds.Some? then WINDOW_BOUNDS_BIT else 0)
    | (if f.boundsInWindow.Some? then BOUNDS_IN_WINDOW_BIT else 0)
    | (if f.windowTitle.Some? then WINDOW_TITLE_BIT else 0)
  }

  /** How many optional-field tokens a flag byte announces. */
  function PresentCount(flg: bv8): nat
  {
    (if flg & CONNECTION_BIT != 0 then 1 else 0)
    + (if flg & WINDOW_BOUNDS_BIT != 0 then 1 else 0)
    + (if flg & BOUNDS_IN_WINDOW_BIT != 0 then 1 else 0)
    + (if flg & WINDOW_TITLE_BIT != 0 then 1 else 0)
  }

  function ConnectionTokens(c: Option<Connection>): seq<Token>
  {
    if c.Some? then [Binder(c.value.binder)] else []
  }

  function RectTokens(r: Option<Rect>): seq<Token>
  {
    if r.Some? then [TypedRect(r.value)] else []
  }

  function TitleTokens(t: Option<string>): seq<Token>
  {
    if t.Some? then [Str(t.value)] else []
  }

  /** The tokens writeToParcel appends for a response. */
  function Encode(f: Fields): (s: seq<Token>)
    ensures |s| == 3 + PresentCount(FlagByte(f))
    ensures s[0] == Byte(FlagByte(f)) && s[1] == Str(f.description)
    ensures s[|s| - 1] == StrList(f.messages)
  {
    [Byte(FlagByte(f))] + ([Str(f.description)] + OptionalTokens(f, [StrList(f.messages)]))
  }

  /** The tokens of the non-null optional fields, in order, followed by tail. */
  function OptionalTokens(f: Fields, tail: seq<Token>): seq<Token>
  {
    ConnectionTokens(f.connection)
    + (RectTokens(f.windowBounds) + (RectTokens(f.boundsInWindow) + (TitleTokens(f.windowTitle) + tail)))
  }

  // Conditional readers: consume a token only when the flag bit says so.

  function TakeConnectionIf(present: bool, s: seq<Token>): (r: Option<(Option<Connection>, seq<Token>)>)
    ensures r.Some? ==> r.value.0.Some? == present
    ensures !present ==> r == Some((None, s))
  {
    if !present then Some((None, s))
    else
      var p :- TakeBinder(s);
      Some((Some(Connection(p.0)), p.1))
  }

  function TakeRectIf(present: bool, s: seq<Token>): (r: Option<(Option<Rect>, seq<Token>)>)
    ensures r.Some? ==> r.value.0.Some? == present
    ensures !present ==> r == Some((None, s))
  {
    if !present then Some((None, s))
    else
      var p :- TakeRect(s);
      Some((Some(p.0), p.1))
  }

  function TakeTitleIf(present: bool, s: seq<Token>): (r: Option<(Option<string>, seq<Token>)>)
    ensures r.Some? ==> r.value.0.Some? == present
    ensures !present ==> r == Some((None, s))
  {
    if !present then Some((None, s))
    else
      var p :- TakeString(s);
      Some((Some(p.0), p.1))
  }

  // Each conditional reader undoes the matching token writer.

  lemma TakeConnectionIfTokens(c: Option<Connection>, rest: seq<Token>)
    ensures TakeConnectionIf(c.Some?, ConnectionTokens(c) + rest) == Some((c, rest))
  {
    if c.Some? { assert ConnectionTokens(c) + rest == [Binder(c.value.binder)] + rest; }
    else { assert ConnectionTokens(c) + rest == rest; }
  }

  lemma TakeRectIfTokens(r: Option<Rect>, rest: seq<Token>)
    ensures TakeRectIf(r.Some?, RectTokens(r) + rest) == Some((r, rest))
  {
    if r.Some? { assert RectTokens(r) + rest == [TypedRect(r.value)] + rest; }
    else { assert RectTokens(r) + rest == rest; }
  }

  lemma TakeTitleIfTokens(t: Option<string>, rest: seq<Token>)
    ensures TakeTitleIf(t.Some?, TitleTokens(t) + rest) == Some((t, rest))
  {
    if t.Some? { assert TitleTokens(t) + rest == [Str(t.value)] + rest; }
    else { assert TitleTokens(t) + rest == rest; }
  }

  // A conditional reader that succeeds consumed exactly the matching tokens.

  lemma TakeConnectionIfSplits(present: bool, s: seq<Token>)
    requires TakeConnectionIf(present, s).Some?
    ensures var (c, rest) := TakeConnectionIf(present, s).value; s == ConnectionTokens(c) + rest
  {
    if present { assert s == [s[0]] + s[1..]; } else { assert s == [] + s; }
  }

  lemma TakeRectIfSplits(present: bool, s: seq<Token>)
    requires TakeRectIf(present, s).Some?
    ensures var (r, rest) := TakeRectIf(present, s).value; s == RectTokens(r) + rest
  {
    if present { assert s == [s[0]] + s[1..]; } else { assert s == [] + s; }
  }

  lemma TakeTitleIfSplits(present: bool, s: seq<Token>)
    requires TakeTitleIf(present, s).Some?
    ensures var (t, rest) := TakeTitleIf(present, s).value; s == TitleTokens(t) + rest
  {
    if present { assert s == [s[0]] + s[1..]; } else { assert s == [] + s; }
  }

  /** Each optional field is present exactly when its flag bit is set. */
  predicate Present(flg: bv8, f: Fields)
  {
    && (f.connection.Some? <==> flg & CONNECTION_BIT != 0)
    && (f.windowBounds.Some? <==> flg & WINDOW_BOUNDS_BIT != 0)
    && (f.boundsInWindow.Some? <==> flg & BOUNDS_IN_WINDOW_BIT != 0)
    && (f.windowTitle.Some? <==> flg & WINDOW_TITLE_BIT != 0)
  }

  /**
   * What the Parcel constructor reads: the flag byte, the description, each
   * optional field whose bit is set, then the message list. Yields the fields
   * and the tokens left after them, or None when a token has the wrong kind.
   */
  function Decode(s: seq<Token>): (r: Option<(Fields, seq<Token>)>)
    ensures r.Some? ==> |s| >= 2 && s[0].Byte? && s[1] == Str(r.value.0.description)
    ensures r.Some? ==> Present(s[0].b, r.value.0)
  {
    var flg :- TakeByte(s);
    var desc :- TakeString(flg.1);
    DecodeOptional(flg.0, desc.0, desc.1)
  }

  /** The rest of Decode, after the flag byte and the description. */
  function DecodeOptional(flg: bv8, description: string, s: seq<Token>): (r: Option<(Fields, seq<Token>)>)
    ensures r.Some? ==> r.value.0.description == description && Present(flg, r.value.0)
  {
    var conn :- TakeConnectionIf(flg & CONNECTION_BIT != 0, s);
    var wb :- TakeRectIf(flg & WINDOW_BOUNDS_BIT != 0, conn.1);
    var biw :- TakeRectIf(flg & BOUNDS_IN_WINDOW_BIT != 0, wb.1);
    var title :- TakeTitleIf(flg & WINDOW_TITLE_BIT != 0, biw.1);
    var msgs :- TakeStringList(title.1);
    Some((Fields(description, conn.0, wb.0, biw.0, title.0, msgs.0), msgs.1))
  }

  /** Reading back what was written yields the same fields and stops exactly after them. */
  lemma EncodeDecode(f: Fields, rest: seq<Token>)
    ensures Decode(Encode(f) + rest) == Some((f, rest))
  {
    var flg := FlagByte(f);
    var s6 := [StrList(f.messages)] + rest;
    var s5 := TitleTokens(f.windowTitle) + s6;
    var s4 := RectTokens(f.boundsInWindow) + s5;
    var s3 := RectTokens(f.windowBounds) + s4;
    var s2 := ConnectionTokens(f.connection) + s3;
    calc {
      Encode(f) + rest;
      [Byte(flg)] + ([Str(f.description)] + OptionalTokens(f, [StrList(f.messages)])) + rest;
      { assert OptionalTokens(f, [StrList(f.messages)]) + rest == s2; }
      [Byte(flg)] + ([Str(f.description)] + s2);
    }
    var s1 := [Str(f.description)] + s2;
    assert TakeByte([Byte(flg)] + s1) == Some((flg, s1));
    assert TakeString(s1) == Some((f.description, s2));
    TakeConnectionIfTokens(f.connection, s3);
    TakeRectIfTokens(f.windowBounds, s4);
    TakeRectIfTokens(f.boundsInWindow, s5);
    TakeTitleIfTokens(f.windowTitle, s6);
    assert TakeStringList(s6) == Some((f.messages, rest));
  }

  /** The fields Decode found, with the tokens between each step made explicit. */
  lemma DecodeSplits(s: seq<Token>)
    requires Decode(s).Some?
    ensures |s| > 1 && s[0].Byte?
    ensures var (f, rest) := Decode(s).value;
      && Present(s[0].b, f)
      && s == [s[0]] + ([Str(f.description)] + OptionalTokens(f, [StrList(f.messages)] + rest))
  {
    var (f, rest) := Decode(s).value;
    var flg := TakeByte(s).value;
    var desc := TakeString(flg.1).value;
    var conn := TakeConnectionIf(flg.0 & CONNECTION_BIT != 0, desc.1).value;
    var wb := TakeRectIf(flg.0 & WINDOW_BOUNDS_BIT != 0, conn.1).value;
    var biw := TakeRectIf(flg.0 & BOUNDS_IN_WINDOW_BIT != 0, wb.1).value;
    var title := TakeTitleIf(flg.0 & WINDOW_TITLE_BIT != 0, biw.1).value;
    TakeConnectionIfSplits(flg.0 & CONNECTION_BIT != 0, desc.1);
    TakeRectIfSplits(flg.0 & WINDOW_BOUNDS_BIT != 0, conn.1);
    TakeRectIfSplits(flg.0 & BOUNDS_IN_WINDOW_BIT != 0, wb.1);
    TakeTitleIfSplits(flg.0 & WINDOW_TITLE_BIT != 0, biw.1);
  }

  /**
   * Alignment on any stream: an optional field is read exactly when its bit is
   * set, so the message list is taken from position 2 + (number of set bits)
   * and exactly 3 + (number of set bits) tokens are consumed.
   */
  lemma DecodeAlignment(s: seq<Token>)
    requires Decode(s).Some?
    ensures |s| > 0 && s[0].Byte?
    ensures var (f, rest) := Decode(s).value;
      && Present(s[0].b, f)
      && |s| - |rest| == 3 + PresentCount(s[0].b)
      && s[2 + PresentCount(s[0].b)] == StrList(f.messages)
  {
    DecodeSplits(s);
    var (f, rest) := Decode(s).value;
    var k := PresentCount(s[0].b);
    var opt := OptionalTokens(f, [StrList(f.messages)] + rest);
    assert |opt| == k + 1 + |rest| && opt[k] == StrList(f.messages);
  }

  /**
   * A stream whose flag byte carries no bit outside 0x2..0x10 is exactly the
   * encoding of what it decodes to, followed by the remaining tokens.
   */
  lemma DecodeEncode(s: seq<Token>)
    requires Decode(s).Some?
    requires s[0].b & 0xE1 == 0
    ensures Encode(Decode(s).value.0) + Decode(s).value.1 == s
  {
    DecodeSplits(s);
    var (f, rest) := Decode(s).value;
    assert FlagByte(f) == s[0].b;
    calc {
      Encode(f) + rest;
      [Byte(FlagByte(f))] + ([Str(f.description)] + OptionalTokens(f, [StrList(f.messages)])) + rest;
      { OptionalTokensAppend(f, [StrList(f.messages)], rest); }
      [s[0]] + ([Str(f.description)] + OptionalTokens(f, [StrList(f.messages)] + rest));
    }
  }

  /** Encode appended to a parcel, written out in the order writeToParcel appends. */
  lemma EncodeSteps(f: Fields, d: seq<Token>)
    ensures d + Encode(f)
         == d + [Byte(FlagByte(f))] + [Str(f.description)] + ConnectionTokens(f.connection)
            + RectTokens(f.windowBounds) + RectTokens(f.boundsInWindow) + TitleTokens(f.windowTitle)
            + [StrList(f.messages)]
  {
  }

  lemma OptionalTokensAppend(f: Fields, tail: seq<Token>, rest: seq<Token>)
    ensures OptionalTokens(f, tail) + rest == OptionalTokens(f, tail + rest)
  {
  }

  // The reads of the Parcel constructor, one step at a time.

  method ReadConnectionIf(src: Parcel, present: bool) returns (r: Option<Option<Connection>>)
    requires src.Valid()
    modifies src
    ensures src.Valid() && src.data == old(src.data)
    ensures var t := TakeConnectionIf(present, old(src.Unread()));
      && (t.None? ==> r.None?)
      && (t.Some? ==> r == Some(t.value.0) && src.Unread() == t.value.1)
  {
    if !present { return Some(None); }
    var h := src.ReadStrongBinder();
    if h.None? { return None; }
    r := Some(Some(Connection(h.value)));
  }

  method ReadRectIf(src: Parcel, present: bool) returns (r: Option<Option<Rect>>)
    requires src.Valid()
    modifies src
    ensures src.Valid() && src.data == old(src.data)
    ensures var t := TakeRectIf(present, old(src.Unread()));
      && (t.None? ==> r.None?)
      && (t.Some? ==> r == Some(t.value.0) && src.Unread() == t.value.1)
  {
    if !present { return Some(None); }
    var rect := src.ReadTypedRect();
    if rect.None? { return None; }
    r := Some(rect);
  }

  method ReadTitleIf(src: Parcel, present: bool) returns (r: Option<Option<string>>)
    requires src.Valid()
    modifies src
    ensures src.Valid() && src.data == old(src.data)
    ensures var t := TakeTitleIf(present, old(src.Unread()));
      && (t.None? ==> r.None?)
      && (t.Some? ==> r == Some(t.value.0) && src.Unread() == t.value.1)
  {
    if !present { return Some(None); }
    var title := src.ReadString();
    if title.None? { return None; }
    r := Some(title);
  }

  /** The reads of the Parcel constructor: the fields, or None on a token of the wrong kind. */
  method ReadFields(src: Parcel) returns (r: Option<Fields>)
    requires src.Valid()
    modifies src
    ensures src.Valid() && src.data == old(src.data)
    ensures var d := Decode(old(src.Unread()));
      && (d.None? ==> r.None?)
      && (d.Some? ==> r == Some(d.value.0) && src.Unread() == d.value.1)
  {
    var flg := src.ReadByte();
    if flg.None? { return None; }
    var description := src.ReadString();
    if description.None? { return None; }
    var connection := ReadConnectionIf(src, flg.value & CONNECTION_BIT != 0);
    if connection.None? { return None; }
    var windowBounds := ReadRectIf(src, flg.value & WINDOW_BOUNDS_BIT != 0);
    if windowBounds.None? { return None; }
    var boundsInWindow := ReadRectIf(src, flg.value & BOUNDS_IN_WINDOW_BIT != 0);
    if boundsInWindow.None? { return None; }
    var windowTitle := ReadTitleIf(src, flg.value & WINDOW_TITLE_BIT != 0);
    if windowTitle.None? { return None; }
    var messages := src.ReadStringList();
    if messages.None? { return None; }
    r := Some(Fields(description.value, connection.value, windowBounds.value, boundsInWindow.value,
                     windowTitle.value, messages.value));
  }

  /** A mutable java.util.ArrayList<String>, shared by reference. */
  class MessageList {
    var items: seq<string>

    constructor (items: seq<string>)
      ensures this.items == items
    {
      this.items := items;
    }

    method Add(m: string)
      modifies this
      ensures items == old(items) + [m]
    {
      items := items + [m];
    }
  }

  class ScrollCaptureResponse {
    // Only the connection is ever reassigned after construction.
    const description: string
    var connection: Option<Connection>
    const windowBounds: Option<Rect>
    const boundsInWindow: Option<Rect>
    const windowTitle: Option<string>
    const messages: MessageList

    /** The current field values. */
    function Value(): Fields
      reads this, messages
    {
      Fields(description, connection, windowBounds, boundsInWindow, windowTitle, messages.items)
    }

    /** The package-private constructor: stores its arguments; the list is kept by reference. */
    constructor (description: string, connection: Option<Connection>, windowBounds: Option<Rect>,
                 boundsInWindow: Option<Rect>, windowTitle: Option<string>, messages: MessageList)
      ensures Value() == Fields(description, connection, windowBounds, boundsInWindow, windowTitle, messages.items)
      ensures this.messages == messages
    {
      this.description := description;
      this.connection := connection;
      this.windowBounds := windowBounds;
      this.boundsInWindow := boundsInWindow;
      this.windowTitle := windowTitle;
      this.messages := messages;
    }

    /**
     * Whether an active connection is present. `live` holds the binder handles
     * whose remote process is alive (isBinderAlive is an IPC query).
     */
    function IsConnected(live: set<nat>): (r: bool)
      reads this
      ensures r ==> connection.Some? && connection.value.binder in live
      ensures connection.Some? && connection.value.binder in live ==> r
    {
      connection.Some? && connection.value.binder in live
    }

    /** Releases the connection (the remote close call has no effect here) and drops it. */
    method Close()
      modifies this
      ensures connection.None?
      ensures forall live: set<nat> :: !IsConnected(live)
      ensures Value() == old(Value()).(connection := None)
    {
      if connection.Some? {
        connection := None;
      }
    }

    /** writeToParcel: appends the encoding of the current fields to dest. */
    method WriteToParcel(dest: Parcel)
      requires dest.Valid()
      modifies dest
      ensures dest.Valid() && dest.readPos == old(dest.readPos)
      ensures dest.data == old(dest.data) + Encode(Value())
    {
      var flg: bv8 := 0;
      if connection.Some? { flg := flg | CONNECTION_BIT; }
      if windowBounds.Some? { flg := flg | WINDOW_BOUNDS_BIT; }
      if boundsInWindow.Some? { flg := flg | BOUNDS_IN_WINDOW_BIT; }
      if windowTitle.Some? { flg := flg | WINDOW_TITLE_BIT; }
      assert flg == FlagByte(Value());
      ghost var d0 := dest.data;
      dest.WriteByte(flg);
      dest.WriteString(description);
      ghost var d1 := dest.data;
      if connection.Some? { dest.WriteStrongBinder(connection.value.binder); }
      assert dest.data == d1 + ConnectionTokens(connection);
      ghost var d2 := dest.data;
      if windowBounds.Some? { dest.WriteTypedRect(windowBounds.value); }
      assert dest.data == d2 + RectTokens(windowBounds);
      ghost var d3 := dest.data;
      if boundsInWindow.Some? { dest.WriteTypedRect(boundsInWindow.value); }
      assert dest.data == d3 + RectTokens(boundsInWindow);
      ghost var d4 := dest.data;
      if windowTitle.Some? { dest.WriteString(windowTitle.value); }
      assert dest.data == d4 + TitleTokens(windowTitle);
      dest.WriteStringList(messages.items);
      EncodeSteps(Value(), d0);
    }

    /**
     * The Parcel constructor (through CREATOR.createFromParcel): reads the
     * layout back from the unread part of src; null when a token has the
     * wrong kind.
     */
    static method FromParcel(src: Parcel) returns (r: ScrollCaptureResponse?)
      requires src.Valid()
      modifies src
      ensures src.Valid() && src.data == old(src.data)
      ensures Decode(old(src.Unread())).None? ==> r == null
      ensures Decode(old(src.Unread())).Some? ==>
                && r != null && fresh(r) && fresh(r.messages)
                && r.Value() == Decode(old(src.Unread())).value.0
                && src.Unread() == Decode(old(src.Unread())).value.1
    {
      var f := ReadFields(src);
      if f.None? { return null; }
      var messages := new MessageList(f.value.messages);
      r := new ScrollCaptureResponse(f.value.description, f.value.connection, f.value.windowBounds,
                                     f.value.boundsInWindow, f.value.windowTitle, messages);
    }
  }
}
