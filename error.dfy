/** Tr1ppy.System/Tr1ppy.System.Abstractions/Errors/Error.cs: a mutable error
    record with a code, a message, an optional inner exception, an optional
    inner error and optional details, and its multi-line text form. Objects
    held in it are represented by the text their `ToString` gives. */
module Errors {
  import opened Wrappers

  /** A value of the error-code enum. */
  type ErrorCode(==, !new)

  /** What the text form reads from an exception: its runtime type name and message. */
  datatype ExceptionInfo = ExceptionInfo(typeName: string, message: string)

  /** A dictionary with string keys, as its entries in enumeration order;
      an overwritten key keeps its place. */
  type Details = seq<(string, string)>

  predicate UniqueKeys(d: Details) {
    forall i, j :: 0 <= i < j < |d| ==> d[i].0 != d[j].0
  }

  /** The value stored under `key`, if any. */
  function Lookup(d: Details, key: string): Option<string>
  {
    if d == [] then None
    else if d[|d| - 1].0 == key then Some(d[|d| - 1].1)
    else Lookup(d[..|d| - 1], key)
  }

  /** The dictionary indexer `d[key] = value`. */
  function SetDetail(d: Details, key: string, value: string): (r: Details)
    requires UniqueKeys(d)
    ensures UniqueKeys(r)
    ensures Lookup(r, key) == Some(value)
    ensures forall k :: k != key ==> Lookup(r, k) == Lookup(d, k)
    ensures |r| == |d| || |r| == |d| + 1
    decreases |d|
  {
    if d == [] then [(key, value)]
    else
      var init := d[..|d| - 1];
      var last := d[|d| - 1];
      assert UniqueKeys(init);
      if last.0 == key then
        LookupAbsent(init, key);
        init + [(key, value)]
      else
        var r := SetDetail(init, key, value) + [last];
        assert UniqueKeys(r) by {
          LookupAbsent(init, last.0);
          LookupPresent(SetDetail(init, key, value), last.0);
        }
        r
  }

  lemma {:induction false} LookupAbsent(d: Details, key: string)
    requires forall i :: 0 <= i < |d| ==> d[i].0 != key
    ensures Lookup(d, key) == None
  {
    if d != [] {
      LookupAbsent(d[..|d| - 1], key);
    }
  }

  lemma {:induction false} LookupPresent(d: Details, key: string)
    requires Lookup(d, key) == None
    ensures forall i :: 0 <= i < |d| ==> d[i].0 != key
  {
    if d != [] {
      LookupPresent(d[..|d| - 1], key);
      assert forall i :: 0 <= i < |d| - 1 ==> d[..|d| - 1][i] == d[i];
    }
  }

  /** The entries of `entries` written in one after another. */
  function SetAll(d: Details, entries: Details): (r: Details)
    requires UniqueKeys(d)
    ensures UniqueKeys(r)
    decreases |entries|
  {
    if entries == [] then d
    else
      var last := entries[|entries| - 1];
      SetDetail(SetAll(d, entries[..|entries| - 1]), last.0, last.1)
  }

  /** After writing `entries` in, a key holds its last value among them, and a
      key not among them keeps its old value. */
  lemma {:induction false} SetAllLookup(d: Details, entries: Details, key: string)
    requires UniqueKeys(d)
    ensures Lookup(SetAll(d, entries), key) ==
      if Lookup(entries, key).Some? then Lookup(entries, key) else Lookup(d, key)
  {
    if entries != [] {
      SetAllLookup(d, entries[..|entries| - 1], key);
    }
  }

  /** The lines of the text form, before line terminators are added: the
      code line and the message line come first; an inner exception line and
      an inner error line appear exactly when those are set; a "Details:"
      header appears exactly when there are details, each of which then has
      one line, in order. */
  function Lines(codeText: string, message: string, innerException: Option<ExceptionInfo>,
                 innerError: Option<string>, details: Option<Details>): (lines: seq<string>)
    ensures |lines| >= 2 && lines[0] == "Error Code: " + codeText
    ensures lines[1] == "Message: " + message
    ensures |lines| == 2 + (if innerException.Some? then 1 else 0) + (if innerError.Some? then 1 else 0)
                      + (if details.Some? && |details.value| > 0 then 1 + |details.value| else 0)
    ensures "Details:" in lines <==> details.Some? && |details.value| > 0
    ensures details.Some? && |details.value| > 0 ==> forall i :: 0 <= i < |details.value| ==>
      lines[|lines| - |details.value| + i] == "- " + details.value[i].0 + ": " + details.value[i].1
  {
    ["Error Code: " + codeText, "Message: " + message]
    + (if innerException.Some? then
         ["Inner Exception: " + innerException.value.typeName + " - " + innerException.value.message]
       else [])
    + (if innerError.Some? then ["Inner Error: " + innerError.value] else [])
    + (if details.Some? && |details.value| > 0 then ["Details:"] + DetailLines(details.value) else [])
  }

  function DetailLines(d: Details): (lines: seq<string>)
    ensures |lines| == |d|
    ensures forall i :: 0 <= i < |d| ==> lines[i] == "- " + d[i].0 + ": " + d[i].1
  {
    if d == [] then [] else DetailLines(d[..|d| - 1]) + ["- " + d[|d| - 1].0 + ": " + d[|d| - 1].1]
  }

  /** `sb.AppendLine` for every line. */
  function Text(lines: seq<string>, newLine: string): string
  {
    if lines == [] then "" else Text(lines[..|lines| - 1], newLine) + lines[|lines| - 1] + newLine
  }

  class Error {
    var code: ErrorCode
    var message: string
    var innerException: Option<ExceptionInfo>
    var details: Option<Details>
    var innerError: Option<string>

    ghost predicate Valid()
      reads this
    {
      details.Some? ==> UniqueKeys(details.value)
    }

    /** The private constructor, for a non-null message. */
    constructor (code: ErrorCode, message: string)
      ensures Valid()
      ensures this.code == code && this.message == message
      ensures innerException == None && details == None && innerError == None
    {
      this.code := code;
      this.message := message;
      innerException, details, innerError := None, None, None;
    }

    /** `From`: a null message throws `ArgumentNullException`. */
    static method From(code: ErrorCode, message: Option<string>) returns (r: Outcome<Error>)
      ensures message.None? ==> r == Throw(ArgumentNull("message"))
      ensures message.Some? ==> (r.Ok? && fresh(r.value) && r.value.Valid()
        && r.value.code == code && r.value.message == message.value
        && r.value.innerException == None && r.value.details == None && r.value.innerError == None)
    {
      if message.None? {
        return Throw(ArgumentNull("message"));
      }
      var e := new Error(code, message.value);
      r := Ok(e);
    }

    /** `FromException`: the exception's own message when none is given; a
        null exception then fails on reading its message. */
    static method FromException(code: ErrorCode, exception: Option<ExceptionInfo>, message: Option<string>)
      returns (r: Outcome<Error>)
      ensures message.None? && exception.None? ==> r == Throw(NullReference)
      ensures message.Some? || exception.Some? ==> (r.Ok? && fresh(r.value) && r.value.Valid()
        && r.value.code == code
        && r.value.message == (if message.Some? then message.value else exception.value.message)
        && r.value.innerException == exception && r.value.details == None && r.value.innerError == None)
    {
      var text: string;
      if message.Some? {
        text := message.value;
      } else if exception.Some? {
        text := exception.value.message;
      } else {
        return Throw(NullReference);
      }
      var e := new Error(code, text);
      var _ := e.WithInnerException(exception);
      r := Ok(e);
    }

    /** `FromInnerError`: by default the message names the inner error's text;
        a null inner error interpolates as the empty string. */
    static method FromInnerError(code: ErrorCode, innerError: Option<string>, message: Option<string>)
      returns (e: Error)
      ensures fresh(e) && e.Valid() && e.code == code
      ensures e.message == if message.Some? then message.value
        else "An internal error occurred: " + (if innerError.Some? then innerError.value else "")
      ensures e.innerError == innerError && e.innerException == None && e.details == None
    {
      var text := if message.Some? then message.value
        else "An internal error occurred: " + (if innerError.Some? then innerError.value else "");
      e := new Error(code, text);
      var _ := e.WithInnerError(innerError);
    }

    method WithMessage(message: string) returns (self: Error)
      modifies this`message
      ensures self == this && this.message == message
    {
      this.message := message;
      self := this;
    }

    method WithCode(code: ErrorCode) returns (self: Error)
      modifies this`code
      ensures self == this && this.code == code
    {
      this.code := code;
      self := this;
    }

    method WithInnerException(innerException: Option<ExceptionInfo>) returns (self: Error)
      modifies this`innerException
      ensures self == this && this.innerException == innerException
    {
      this.innerException := innerException;
      self := this;
    }

    method WithInnerError(innerError: Option<string>) returns (self: Error)
      modifies this`innerError
      ensures self == this && this.innerError == innerError
    {
      this.innerError := innerError;
      self := this;
    }

    /** `WithDetail`: create the details on first use, then write the entry. */
    method WithDetail(key: string, value: string) returns (self: Error)
      requires Valid()
      modifies this`details
      ensures Valid() && self == this
      ensures details == Some(SetDetail(if old(details).Some? then old(details).value else [], key, value))
    {
      var current := if details.Some? then details.value else [];
      details := Some(SetDetail(current, key, value));
      self := this;
    }

    /** `WithDetails`: nothing for null; otherwise create the details if needed
        and write every entry in, in order. */
    method WithDetails(entries: Option<Details>) returns (self: Error)
      requires Valid()
      modifies this`details
      ensures Valid() && self == this
      ensures entries.None? ==> details == old(details)
      ensures entries.Some? ==>
        details == Some(SetAll(if old(details).Some? then old(details).value else [], entries.value))
    {
      self := this;
      if entries.None? {
        return;
      }
      var start := if details.Some? then details.value else [];
      details := Some(start);
      var i := 0;
      while i < |entries.value|
        invariant i <= |entries.value|
        invariant details == Some(SetAll(start, entries.value[..i]))
      {
        assert entries.value[..i + 1][..i] == entries.value[..i];
        details := Some(SetDetail(details.value, entries.value[i].0, entries.value[i].1));
        i := i + 1;
      }
      assert entries.value[..i] == entries.value;
    }

    /** `ToString()`, with the code's enum name given by `codeText` and the
        line terminator by `newLine`. */
    method ToString(codeText: ErrorCode -> string, newLine: string) returns (s: string)
      ensures s == Text(Lines(codeText(code), message, innerException, innerError, details), newLine)
    {
      var lines := Lines(codeText(code), message, innerException, innerError, details);
      s := "";
      var i := 0;
      while i < |lines|
        invariant i <= |lines|
        invariant s == Text(lines[..i], newLine)
      {
        assert lines[..i + 1][..i] == lines[..i];
        s := s + lines[i] + newLine;
        i := i + 1;
      }
      assert lines[..i] == lines;
    }
  }
}
