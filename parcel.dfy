/**
 * An Android Parcel seen as a stream of tagged tokens. Each write appends one
 * token; each read consumes the next token if it has the expected kind. The
 * byte-level layout of a Parcel is not part of this model: a Rect, a binder
 * and a string list each travel as one opaque token.
 */
module Parcels {
  import opened Wrappers

  /** android.graphics.Rect, passed through unchanged. */
  datatype Rect = Rect(left: int, top: int, right: int, bottom: int)

  datatype Token =
    | Byte(b: bv8)                 // writeByte
    | Str(s: string)               // writeString of a non-null string
    | Binder(handle: nat)          // writeStrongInterface of a non-null interface
    | TypedRect(rect: Rect)        // writeTypedObject of a non-null Rect
    | StrList(items: seq<string>)  // writeStringList

  // Pure readers: each takes the next token of one kind off the front.

  function TakeByte(s: seq<Token>): (r: Option<(bv8, seq<Token>)>)
    ensures r.Some? <==> |s| > 0 && s[0].Byte?
    ensures r.Some? ==> [Byte(r.value.0)] + r.value.1 == s
  {
    if |s| > 0 && s[0].Byte? then Some((s[0].b, s[1..])) else None
  }

  function TakeString(s: seq<Token>): (r: Option<(string, seq<Token>)>)
    ensures r.Some? <==> |s| > 0 && s[0].Str?
    ensures r.Some? ==> [Str(r.value.0)] + r.value.1 == s
  {
    if |s| > 0 && s[0].Str? then Some((s[0].s, s[1..])) else None
  }

  function TakeBinder(s: seq<Token>): (r: Option<(nat, seq<Token>)>)
    ensures r.Some? <==> |s| > 0 && s[0].Binder?
    ensures r.Some? ==> [Binder(r.value.0)] + r.value.1 == s
  {
    if |s| > 0 && s[0].Binder? then Some((s[0].handle, s[1..])) else None
  }

  function TakeRect(s: seq<Token>): (r: Option<(Rect, seq<Token>)>)
    ensures r.Some? <==> |s| > 0 && s[0].TypedRect?
    ensures r.Some? ==> [TypedRect(r.value.0)] + r.value.1 == s
  {
    if |s| > 0 && s[0].TypedRect? then Some((s[0].rect, s[1..])) else None
  }

  function TakeStringList(s: seq<Token>): (r: Option<(seq<string>, seq<Token>)>)
    ensures r.Some? <==> |s| > 0 && s[0].StrList?
    ensures r.Some? ==> [StrList(r.value.0)] + r.value.1 == s
  {
    if |s| > 0 && s[0].StrList? then Some((s[0].items, s[1..])) else None
  }

  /** A parcel: the tokens written so far and the position of the next read. */
  class Parcel {
    var data: seq<Token>
    var readPos: nat

    ghost predicate Valid()
      reads this
    {
      readPos <= |data|
    }

    /** The tokens not yet read. */
    function Unread(): seq<Token>
      reads this
      requires Valid()
    {
      data[readPos..]
    }

    constructor ()
      ensures Valid() && data == [] && readPos == 0
    {
      data, readPos := [], 0;
    }

    method WriteByte(b: bv8)
      requires Valid()
      modifies this
      ensures Valid() && data == old(data) + [Byte(b)] && readPos == old(readPos)
    {
      data := data + [Byte(b)];
    }

    method WriteString(s: string)
      requires Valid()
      modifies this
      ensures Valid() && data == old(data) + [Str(s)] && readPos == old(readPos)
    {
      data := data + [Str(s)];
    }

    method WriteStrongBinder(handle: nat)
      requires Valid()
      modifies this
      ensures Valid() && data == old(data) + [Binder(handle)] && readPos == old(readPos)
    {
      data := data + [Binder(handle)];
    }

    method WriteTypedRect(r: Rect)
      requires Valid()
      modifies this
      ensures Valid() && data == old(data) + [TypedRect(r)] && readPos == old(readPos)
    {
      data := data + [TypedRect(r)];
    }

    method WriteStringList(items: seq<string>)
      requires Valid()
      modifies this
      ensures Valid() && data == old(data) + [StrList(items)] && readPos == old(readPos)
    {
      data := data + [StrList(items)];
    }

    method ReadByte() returns (r: Option<bv8>)
      requires Valid()
      modifies this
      ensures Valid() && data == old(data)
      ensures TakeByte(old(Unread())).None? ==> r.None? && readPos == old(readPos)
      ensures TakeByte(old(Unread())).Some? ==>
                r == Some(TakeByte(old(Unread())).value.0) && Unread() == TakeByte(old(Unread())).value.1
    {
      if readPos < |data| && data[readPos].Byte? {
        r := Some(data[readPos].b);
        readPos := readPos + 1;
      } else {
        r := None;
      }
    }

    method ReadString() returns (r: Option<string>)
      requires Valid()
      modifies this
      ensures Valid() && data == old(data)
      ensures TakeString(old(Unread())).None? ==> r.None? && readPos == old(readPos)
      ensures TakeString(old(Unread())).Some? ==>
                r == Some(TakeString(old(Unread())).value.0) && Unread() == TakeString(old(Unread())).value.1
    {
      if readPos < |data| && data[readPos].Str? {
        r := Some(data[readPos].s);
        readPos := readPos + 1;
      } else {
        r := None;
      }
    }

    method ReadStrongBinder() returns (r: Option<nat>)
      requires Valid()
      modifies this
      ensures Valid() && data == old(data)
      ensures TakeBinder(old(Unread())).None? ==> r.None? && readPos == old(readPos)
      ensures TakeBinder(old(Unread())).Some? ==>
                r == Some(TakeBinder(old(Unread())).value.0) && Unread() == TakeBinder(old(Unread())).value.1
    {
      if readPos < |data| && data[readPos].Binder? {
        r := Some(data[readPos].handle);
        readPos := readPos + 1;
      } else {
        r := None;
      }
    }

    method ReadTypedRect() returns (r: Option<Rect>)
      requires Valid()
      modifies this
      ensures Valid() && data == old(data)
      ensures TakeRect(old(Unread())).None? ==> r.None? && readPos == old(readPos)
      ensures TakeRect(old(Unread())).Some? ==>
                r == Some(TakeRect(old(Unread())).value.0) && Unread() == TakeRect(old(Unread())).value.1
    {
      if readPos < |data| && data[readPos].TypedRect? {
        r := Some(data[readPos].rect);
        readPos := readPos + 1;
      } else {
        r := None;
      }
    }

    method ReadStringList() returns (r: Option<seq<string>>)
      requires Valid()
      modifies this
      ensures Valid() && data == old(data)
      ensures TakeStringList(old(Unread())).None? ==> r.None? && readPos == old(readPos)
      ensures TakeStringList(old(Unread())).Some? ==>
                r == Some(TakeStringList(old(Unread())).value.0) && Unread() == TakeStringList(old(Unread())).value.1
    {
      if readPos < |data| && data[readPos].StrList? {
        r := Some(data[readPos].items);
        readPos := readPos + 1;
      } else {
        r := None;
      }
    }
  }
}
