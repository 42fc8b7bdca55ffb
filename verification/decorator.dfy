/**
 * Model of src/main/utils/decorator.py: the message formatter for a caught
 * fault and the two wrappers that turn a handler's fault into a failure
 * envelope with HTTP 500.
 *
 * A handler's run is a value: it returns, or it raises a fault that carries
 * its class name, its arguments (as rendered by `str`) and the frames its
 * traceback passed through, innermost last.
 */
module Decorator {
  import opened Wrappers
  import opened PyStr
  import Schemas

  /** One entry of `traceback.extract_tb`: file, line number, function name. */
  datatype Frame = Frame(file: string, line: nat, funcName: string)

  /** A raised fault. `isException` is false for faults that derive from
      `BaseException` only (`KeyboardInterrupt`, `SystemExit`, ...), which
      `except Exception` does not catch. */
  datatype Fault = Fault(className: string, args: seq<string>, traceback: seq<Frame>, isException: bool)

  // ---------------------------------------------------------------------
  // The message
  // ---------------------------------------------------------------------

  /** `e.args[0] if e.args else ""`. */
  function Detail(args: seq<string>): (d: string)
    ensures args == [] ==> d == ""
    ensures args != [] ==> d == args[0]
  {
    if args == [] then "" else args[0]
  }

  /** `File "<file>", line <n>, in <function>: ` */
  function Location(f: Frame): string {
    "File \"" + f.file + "\", line " + NatToString(f.line) + ", in " + f.funcName + ": "
  }

  /** `[<Class>] <detail>` */
  function Classified(className: string, detail: string): string {
    "[" + className + "] " + detail
  }

  /** The message for a fault, located at `frame` when there is traceback information. */
  function Message(frame: Option<Frame>, className: string, detail: string): string {
    (if frame.Some? then Location(frame.value) else "") + Classified(className, detail)
  }

  /** `_format_exc(e)`: the class name and detail, prefixed with the location
      of the innermost frame when the traceback is not empty. */
  function FormatExc(f: Fault): (m: string)
    ensures f.traceback == [] ==> m == Classified(f.className, Detail(f.args))
    ensures f.traceback != [] ==> m == Location(f.traceback[|f.traceback| - 1]) + Classified(f.className, Detail(f.args))
  {
    Message(if f.traceback == [] then None else Some(f.traceback[|f.traceback| - 1]), f.className, Detail(f.args))
  }

  // --- Reading a message back --------------------------------------------

  /** What a formatted message says. */
  datatype Parts = Parts(location: Option<Frame>, className: string, detail: string)

  /** Reads `[<Class>] <detail>`; the separating space may be missing when the
      detail is empty and the message was stripped. */
  function ParseClassified(m: string, location: Option<Frame>): Option<Parts> {
    match DropPrefix(m, "[")
    case None => None
    case Some(rest) =>
      match SplitOnce(rest, ']')
      case None => None
      case Some(p) =>
        if p.1 == [] then Some(Parts(location, p.0, ""))
        else
          match DropPrefix(p.1, " ")
          case None => None
          case Some(d) => Some(Parts(location, p.0, d))
  }

  /** Reads `File "<file>"` off the front of `m`. */
  function ParseFile(m: string): Option<(string, string)> {
    match DropPrefix(m, "File \"")
    case None => None
    case Some(r) => SplitOnce(r, '"')
  }

  /** Reads `, line <n>,` off the front of `m`. */
  function ParseLine(m: string): Option<(nat, string)> {
    match DropPrefix(m, ", line ")
    case None => None
    case Some(r) =>
      match SplitOnce(r, ',')
      case None => None
      case Some(p) => if p.0 == [] || !AllDigits(p.0) then None else Some((DigitsValue(p.0), p.1))
  }

  /** Reads ` in <function>: ` off the front of `m`. */
  function ParseFunction(m: string): Option<(string, string)> {
    match DropPrefix(m, " in ")
    case None => None
    case Some(r) =>
      match SplitOnce(r, ':')
      case None => None
      case Some(p) =>
        match DropPrefix(p.1, " ")
        case None => None
        case Some(rest) => Some((p.0, rest))
  }

  /** Reads a location prefix off the front of `m`. */
  function ParseLocation(m: string): Option<(Frame, string)> {
    match ParseFile(m)
    case None => None
    case Some(p1) =>
      match ParseLine(p1.1)
      case None => None
      case Some(p2) =>
        match ParseFunction(p2.1)
        case None => None
        case Some(p3) => Some((Frame(p1.0, p2.0, p3.0), p3.1))
  }

  /** Reads a message `_format_exc` builds. */
  function ParseMessage(m: string): Option<Parts> {
    if DropPrefix(m, "File \"").Some? then
      match ParseLocation(m)
      case None => None
      case Some(p) => ParseClassified(p.1, Some(p.0))
    else ParseClassified(m, None)
  }

  /** Names the message format can carry unambiguously: a class name has no
      `]`, a file name no `"`, a function name no `:`. Python identifiers and
      the usual paths qualify. */
  predicate Readable(frame: Option<Frame>, className: string) {
    && ']' !in className
    && (frame.Some? ==> '"' !in frame.value.file && ':' !in frame.value.funcName)
  }

  lemma {:induction false} ClassifiedRoundTrip(className: string, detail: string, location: Option<Frame>)
    requires ']' !in className
    ensures ParseClassified(Classified(className, detail), location) == Some(Parts(location, className, detail))
  {
    var m := Classified(className, detail);
    assert m == "[" + (className + [']'] + (" " + detail));
    DropPrefixOf("[", className + [']'] + (" " + detail));
    SplitOnceOf(className, ']', " " + detail);
    DropPrefixOf(" ", detail);
  }

  lemma FileRoundTrip(file: string, rest: string)
    requires '"' !in file
    ensures ParseFile("File \"" + (file + ['"'] + rest)) == Some((file, rest))
  {
    DropPrefixOf("File \"", file + ['"'] + rest);
    SplitOnceOf(file, '"', rest);
  }

  lemma LineRoundTrip(line: nat, rest: string)
    ensures ParseLine(", line " + (NatToString(line) + [','] + rest)) == Some((line, rest))
  {
    DropPrefixOf(", line ", NatToString(line) + [','] + rest);
    assert ',' !in NatToString(line);
    SplitOnceOf(NatToString(line), ',', rest);
    NatToStringRoundTrip(line);
  }

  lemma FunctionRoundTrip(funcName: string, rest: string)
    requires ':' !in funcName
    ensures ParseFunction(" in " + (funcName + [':'] + (" " + rest))) == Some((funcName, rest))
  {
    DropPrefixOf(" in ", funcName + [':'] + (" " + rest));
    SplitOnceOf(funcName, ':', " " + rest);
    DropPrefixOf(" ", rest);
  }

  /** A location prefix reads back as its frame, leaving what follows it. */
  lemma LocationRoundTrip(f: Frame, rest: string)
    requires '"' !in f.file && ':' !in f.funcName
    ensures ParseLocation(Location(f) + rest) == Some((f, rest))
  {
    var r3 := " in " + (f.funcName + [':'] + (" " + rest));
    var r2 := ", line " + (NatToString(f.line) + [','] + r3);
    assert Location(f) + rest == "File \"" + (f.file + ['"'] + r2);
    FileRoundTrip(f.file, r2);
    LineRoundTrip(f.line, r3);
    FunctionRoundTrip(f.funcName, rest);
  }

  /** Every part of the message can be read back from it: the location, the
      class name and the detail. */
  lemma MessageRoundTrip(frame: Option<Frame>, className: string, detail: string)
    requires Readable(frame, className)
    ensures ParseMessage(Message(frame, className, detail)) == Some(Parts(frame, className, detail))
  {
    ReadBack(frame, className, Classified(className, detail));
    ClassifiedRoundTrip(className, detail, frame);
  }

  /** A message is read as its location prefix, if any, then the classified part. */
  lemma ReadBack(frame: Option<Frame>, className: string, tail: string)
    requires Readable(frame, className) && tail != [] && tail[0] == '['
    ensures ParseMessage((if frame.Some? then Location(frame.value) else "") + tail)
            == ParseClassified(tail, frame)
  {
    if frame.Some? {
      LocationRoundTrip(frame.value, tail);
      var m := Location(frame.value) + tail;
      assert m[..|"File \""|] == "File \"";
    } else {
      assert "" + tail == tail;
      assert DropPrefix(tail, "File \"").None? by {
        if |tail| >= |"File \""| {
          assert tail[..|"File \""|][0] == '[';
        }
      }
    }
  }

  /** The envelope strips the message; what is read back is then the detail
      without its trailing whitespace. */
  lemma StrippedRoundTrip(frame: Option<Frame>, className: string, detail: string)
    requires Readable(frame, className)
    ensures ParseMessage(Strip(UnicodeWhiteSpace, Message(frame, className, detail))) == Some(Parts(frame, className, RStrip(UnicodeWhiteSpace, detail)))
  {
    StripMessage(frame, className, detail);
    if RStrip(UnicodeWhiteSpace, detail) != [] {
      MessageRoundTrip(frame, className, RStrip(UnicodeWhiteSpace, detail));
    } else {
      ReadBack(frame, className, "[" + className + "]");
      BareClassifiedRoundTrip(className, frame);
    }
  }

  /** `[<Class>]` with nothing after it reads back with an empty detail. */
  lemma BareClassifiedRoundTrip(className: string, location: Option<Frame>)
    requires ']' !in className
    ensures ParseClassified("[" + className + "]", location) == Some(Parts(location, className, ""))
  {
    var tail := "[" + className + "]";
    assert tail == "[" + (className + [']'] + "");
    DropPrefixOf("[", className + [']'] + "");
    SplitOnceOf(className, ']', "");
  }

  /** Stripping a message removes the detail's trailing whitespace, and the
      separating space too when nothing of the detail is left. */
  lemma StripMessage(frame: Option<Frame>, className: string, detail: string)
    ensures RStrip(UnicodeWhiteSpace, detail) != [] ==> Strip(UnicodeWhiteSpace, Message(frame, className, detail)) == Message(frame, className, RStrip(UnicodeWhiteSpace, detail))
    ensures RStrip(UnicodeWhiteSpace, detail) == [] ==>
              Strip(UnicodeWhiteSpace, Message(frame, className, detail)) == (if frame.Some? then Location(frame.value) else "") + ("[" + className + "]")
  {
    var loc := if frame.Some? then Location(frame.value) else "";
    assert loc != [] ==> loc[0] == 'F';
    StripClassified(loc, className, detail);
  }

  lemma StripClassified(loc: string, className: string, detail: string)
    requires loc != [] ==> loc[0] == 'F'
    ensures RStrip(UnicodeWhiteSpace, detail) != [] ==> Strip(UnicodeWhiteSpace, loc + Classified(className, detail)) == loc + Classified(className, RStrip(UnicodeWhiteSpace, detail))
    ensures RStrip(UnicodeWhiteSpace, detail) == [] ==> Strip(UnicodeWhiteSpace, loc + Classified(className, detail)) == loc + ("[" + className + "]")
  {
    var head := loc + ("[" + className + "]");
    ClassifiedShape(loc, className, detail);
    ClassifiedShape(loc, className, RStrip(UnicodeWhiteSpace, detail));
    StripNoLeading(UnicodeWhiteSpace, loc + Classified(className, detail));
    RStripAfterSpace(head, detail);
  }

  /** A message is its head, one space, and the detail; it starts with `F` or `[`. */
  lemma ClassifiedShape(loc: string, className: string, detail: string)
    requires loc != [] ==> loc[0] == 'F'
    ensures loc + Classified(className, detail) == (loc + ("[" + className + "]") + " ") + detail
    ensures (loc + Classified(className, detail))[0] in {'F', '['}
    ensures (loc + ("[" + className + "]"))[|loc + ("[" + className + "]")| - 1] == ']'
  {
  }

  lemma RStripAfterSpace(head: string, detail: string)
    requires head != [] && head[|head| - 1] == ']'
    ensures RStrip(UnicodeWhiteSpace, detail) != [] ==> RStrip(UnicodeWhiteSpace, head + " " + detail) == head + " " + RStrip(UnicodeWhiteSpace, detail)
    ensures RStrip(UnicodeWhiteSpace, detail) == [] ==> RStrip(UnicodeWhiteSpace, head + " " + detail) == head
  {
    var prefix := head + " ";
    RStripAppend(UnicodeWhiteSpace, prefix, detail);
    if RStrip(UnicodeWhiteSpace, detail) == [] {
      assert prefix[..|prefix| - 1] == head;
      assert RStrip(UnicodeWhiteSpace, prefix) == head;
    }
  }

  // ---------------------------------------------------------------------
  // The wrappers
  // ---------------------------------------------------------------------

  /** How a call ended: a value, or a fault. */
  datatype Outcome<V> = Returned(value: V) | Raised(fault: Fault)

  /** What a wrapper returns: the handler's own value, or the failure response. */
  datatype Reply<V> = HandlerValue(value: V) | ErrorResponse(response: Schemas.Response)

  /** What the wrapper needs from around the call: its own frame, which the
      traceback of a caught fault starts at, and what `_resolve_version()`
      gives when the failure envelope is built. */
  datatype CallSite = CallSite(wrapperFrame: Frame, version: string)

  /** `InternalServerErrorModel(status_code=ResultStatusEm.ng, msg=err_msg)`:
      status `ng` and the message stripped. */
  function FailureEnvelope(message: string, version: string): (e: Schemas.Envelope)
    ensures e.InternalServerError? && e.status.Code() == "1"
    ensures NoEdgeSpace(UnicodeWhiteSpace, e.msg) && exists i :: TrimmedSlice(UnicodeWhiteSpace, message, e.msg, i)
  {
    Schemas.Envelope.InternalServerError(Schemas.ResultStatus.StatusNg, version,
      Schemas.StrField(Some(message), Schemas.Model.InternalErrorModel.DefaultMsg()))
  }

  /** The failure envelope is what the error model's constructor builds from these arguments. */
  lemma FailureEnvelopeIsModel(message: string, version: string)
    ensures Schemas.Construct(Schemas.Model.InternalErrorModel,
                              Schemas.Args(Some("1"), None, Some(message), None), version)
            == Ok(FailureEnvelope(message, version))
  {
    assert Schemas.StatusOf("1") == Some(Schemas.ResultStatus.StatusNg);
  }

  /** The fault as the wrapper catches it: its traceback starts at the wrapper's frame. */
  function Caught(f: Fault, site: CallSite): Fault {
    f.(traceback := [site.wrapperFrame] + f.traceback)
  }

  /** `handle_except(func)(...)`: a normal return passes through unchanged; an
      `Exception` becomes the failure envelope with HTTP 500; any other fault
      propagates. */
  function HandleExcept<V>(o: Outcome<V>, site: CallSite): (r: Outcome<Reply<V>>)
    ensures o.Returned? ==> r == Returned(HandlerValue(o.value))
    ensures o.Raised? && o.fault.isException ==>
              r == Returned(ErrorResponse(Schemas.Response(
                     FailureEnvelope(FormatExc(Caught(o.fault, site)), site.version),
                     Schemas.HttpInternalServerError)))
    ensures o.Raised? && !o.fault.isException ==> r == Raised(o.fault)
  {
    match o
    case Returned(v) => Returned(HandlerValue(v))
    case Raised(f) =>
      if f.isException then
        var envelope := FailureEnvelope(FormatExc(Caught(f, site)), site.version);
        Returned(ErrorResponse(Schemas.Response(envelope, Schemas.HttpInternalServerError)))
      else Raised(f)
  }

  /** The failure response always names where the fault was raised (the
      innermost frame, or the wrapper itself when the fault carries no
      frames), its class and its detail without trailing whitespace. */
  lemma FailureMessageReadable<V>(f: Fault, site: CallSite)
    requires f.isException
    requires Readable(Some(site.wrapperFrame), f.className)
    requires forall i :: 0 <= i < |f.traceback| ==> Readable(Some(f.traceback[i]), f.className)
    ensures var r := HandleExcept<V>(Raised(f), site);
            var innermost := if f.traceback == [] then site.wrapperFrame else f.traceback[|f.traceback| - 1];
            && r.Returned? && r.value.ErrorResponse?
            && r.value.response.statusCode == 500
            && r.value.response.body.status.Code() == "1"
            && ParseMessage(r.value.response.body.msg) == Some(Parts(Some(innermost), f.className, RStrip(UnicodeWhiteSpace, Detail(f.args))))
  {
    var c := Caught(f, site);
    var innermost := c.traceback[|c.traceback| - 1];
    assert innermost == if f.traceback == [] then site.wrapperFrame else f.traceback[|f.traceback| - 1];
    assert Readable(Some(innermost), f.className);
    var m := FormatExc(c);
    assert m == Message(Some(innermost), f.className, Detail(f.args));
    StrippedRoundTrip(Some(innermost), f.className, Detail(f.args));
    var e := FailureEnvelope(m, site.version);
    assert e.msg == Strip(UnicodeWhiteSpace, m);
    assert HandleExcept<V>(Raised(f), site)
           == Returned(ErrorResponse(Schemas.Response(e, Schemas.HttpInternalServerError)));
  }

  // --- The async wrapper ---------------------------------------------------

  /** A coroutine's run: it suspends at the awaited points in order, then finishes. */
  datatype Coroutine<V> = Finish(outcome: Outcome<V>) | Suspend(awaiting: string, resume: Coroutine<V>)

  function Suspensions<V>(c: Coroutine<V>): seq<string> {
    match c
    case Finish(_) => []
    case Suspend(a, next) => [a] + Suspensions(next)
  }

  function FinalOutcome<V>(c: Coroutine<V>): Outcome<V> {
    match c
    case Finish(o) => o
    case Suspend(_, next) => FinalOutcome(next)
  }

  /** `async_handle_except(func)(...)`: `await func(...)` inside the same
      try/except. The wrapper itself never suspends: it suspends exactly where
      the handler does and ends as the sync wrapper would. */
  function AsyncHandleExcept<V>(c: Coroutine<V>, site: CallSite): (r: Coroutine<Reply<V>>)
    ensures Suspensions(r) == Suspensions(c)
    ensures FinalOutcome(r) == HandleExcept(FinalOutcome(c), site)
  {
    match c
    case Finish(o) => Finish(HandleExcept(o, site))
    case Suspend(a, next) => Suspend(a, AsyncHandleExcept(next, site))
  }
}
