/** Running one claimed command: what its processes print is cut to a bound and
    made valid text, and the outcome is one the server accepts. */
module Executor {
  import opened Prelude
  import opened Utf8
  import opened CommandTable
  import opened Commands

  function Min(a: nat, b: nat): nat {
    if a < b then a else b
  }

  /** The writer both output streams of a command share. */
  class BoundedOutput {
    const limit: nat
    var buffer: Bytes
    var truncated: bool
    ghost var written: Bytes    // everything the command has printed

    ghost predicate Valid()
      reads this
    {
      && buffer == written[..Min(limit, |written|)]
      && (truncated <==> |written| > limit)
    }

    constructor (limit: nat)
      ensures Valid() && written == [] && this.limit == limit
    {
      this.limit, buffer, truncated, written := limit, [], false, [];
    }

    /** However the output is split into writes, its first `limit` bytes are kept; the writer never reports a short
        write. */
    method Write(value: Bytes) returns (n: nat)
      requires Valid()
      modifies this
      ensures Valid() && written == old(written) + value && n == |value|
    {
      n := |value|;
      var remaining := limit - |buffer|;
      written := written + value;
      if remaining <= 0 {
        if n > 0 {
          truncated := true;
        }
        assert buffer == written[..limit];
        return;
      }
      assert buffer == old(written);
      var kept := value;
      if |value| > remaining {
        kept := value[..remaining];
        truncated := true;
      }
      buffer := buffer + kept;
      assert buffer == written[..Min(limit, |written|)];
    }
  }

  /** normalizedOutput: the captured bytes as valid text, within the bound of the server. */
  method Normalized(writer: BoundedOutput) returns (text: Bytes, truncated: bool)
    requires writer.Valid() && writer.limit == MAX_OUTPUT
    ensures Valid(text) && |text| <= MAX_OUTPUT
    ensures text <= ToValid(writer.buffer)
    ensures truncated <==> |writer.written| > MAX_OUTPUT || text != ToValid(writer.buffer)
    ensures text != ToValid(writer.buffer) ==> MAX_OUTPUT < |text| + 4
    ensures Valid(writer.written) && |writer.written| <= MAX_OUTPUT ==> text == writer.written && !truncated
  {
    hide ToValid, Utf8.Valid;
    text := ToValid(writer.buffer);
    truncated := writer.truncated;
    assert writer.written[..|writer.written|] == writer.written;
    if Utf8.Valid(writer.written) {
      ToValidKeepsValid(writer.written, false);
    }
    if |text| > MAX_OUTPUT {
      ToValidTwice(writer.buffer);
      text := Bounded(text, MAX_OUTPUT);
      truncated := true;
    }
  }

  lemma ToValidTwice(s: Bytes)
    ensures ToValid(ToValid(s)) == ToValid(s)
  {
    ToValidKeepsValid(ToValid(s), false);
  }

  function Digits(n: nat): (r: string)
    ensures 1 <= |r|
  {
    var last := ["0123456789"[n % 10]];
    if n < 10 then last else Digits(n / 10) + last
  }

  /** The number a decimal numeral names. */
  function Number(s: string): nat {
    if s == "" then 0 else 10 * Number(s[..|s| - 1]) + Digit(s[|s| - 1])
  }

  function Digit(c: char): nat {
    if '0' <= c <= '9' then (c - '0') as nat else 0
  }

  /** Digits writes a number in decimal, without leading zeros. */
  lemma {:induction false} DigitsName(n: nat)
    ensures Number(Digits(n)) == n && (forall c :: c in Digits(n) ==> '0' <= c <= '9')
    ensures n > 0 ==> Digits(n)[0] != '0'
  {
    var last := "0123456789"[n % 10];
    assert Digit(last) == n % 10;
    if n < 10 {
      assert Digits(n) == [last] && [last][..0] == "";
    } else {
      DigitsName(n / 10);
      assert Digits(n)[..|Digits(n)| - 1] == Digits(n / 10);
    }
  }

  function Power(k: nat): (r: nat)
    ensures r >= 1
  {
    if k == 0 then 1 else 10 * Power(k - 1)
  }

  lemma {:induction false} DigitsBounded(n: nat, k: nat)
    requires k > 0 && n < Power(k)
    ensures |Digits(n)| <= k
  {
    if n >= 10 {
      assert Power(0) == 1 && n / 10 < Power(k - 1);
      DigitsBounded(n / 10, k - 1);
    }
  }

  /** How the run of a command ended: the exit code is negative when the process has none. */
  datatype Run = Run(exitCode: int, error: Option<Bytes>, context: ContextState, elapsed: nat)

  datatype ContextState = Live | DeadlineExceeded | Canceled

  /** An int of the agent's platform. */
  predicate Int64(n: int) {
    -0x8000_0000_0000_0000 <= n < 0x8000_0000_0000_0000
  }

  /** How a finished run is reported, before its message. */
  function StatusOf(run: Run): Status {
    match run.context
    case DeadlineExceeded => TimedOut
    case Canceled => Failed
    case Live => if run.error.Some? || run.exitCode != 0 then Failed else Succeeded
  }

  /** What an executor hands to the worker, which fills in the execution and the token. */
  predicate Reportable(c: Completion) {
    && c.status.Terminal() && c.duration >= 0 && Valid(c.output) && |c.output| <= MAX_OUTPUT && Valid(c.error)
    && |c.error| <= MAX_ERROR
  }

  /** Once the worker has filled in execution and token, both validators of the server pass. */
  lemma ReportIsAccepted(c: Completion, execution: nat, token: nat)
    requires Reportable(c) && execution != 0 && token != 0
    ensures ValidCompletion(c.(execution := execution)) && ValidPayload(c.(execution := execution), token)
  {
  }

  /** Everything a command prints. */
  function Flat(chunks: seq<Bytes>): Bytes {
    if chunks == [] then [] else Flat(chunks[..|chunks| - 1]) + chunks[|chunks| - 1]
  }

  /** The first bytes of it that are kept. */
  function Kept(chunks: seq<Bytes>): Bytes {
    Flat(chunks)[..Min(MAX_OUTPUT, |Flat(chunks)|)]
  }

  /** What a command printed, and whether that is all of it. */
  predicate Captured(chunks: seq<Bytes>, text: Bytes, truncated: bool) {
    && text <= ToValid(Kept(chunks)) && |text| <= MAX_OUTPUT
    && (truncated <==> |Flat(chunks)| > MAX_OUTPUT || text != ToValid(Kept(chunks)))
    && (text != ToValid(Kept(chunks)) ==> MAX_OUTPUT < |text| + 4)
    && (Valid(Flat(chunks)) && |Flat(chunks)| <= MAX_OUTPUT ==> text == Flat(chunks) && !truncated)
  }

  method Capture(chunks: seq<Bytes>) returns (text: Bytes, truncated: bool)
    ensures Valid(text) && |text| <= MAX_OUTPUT && Captured(chunks, text, truncated)
  {
    hide ToValid, Utf8.Valid;
    var writer := new BoundedOutput(MAX_OUTPUT);
    for i := 0 to |chunks|
      invariant writer.Valid() && writer.limit == MAX_OUTPUT && writer.written == Flat(chunks[..i])
    {
      assert chunks[..i + 1][..i] == chunks[..i];
      var n := writer.Write(chunks[i]);
    }
    assert chunks[..|chunks|] == chunks;
    text, truncated := Normalized(writer);
  }

  lemma MessageIsShort(text: string, n: nat, rest: string)
    requires |text| + |rest| < 100 && n < 0x8000_0000_0000_0000
    ensures var m := Ascii(text + Digits(n) + rest); Valid(m) && |m| <= MAX_ERROR && m != []
  {
    hide Ascii, Valid, Digits;
    assert Power(4) == 10_000;
    assert Power(8) == 10_000 * 10_000;
    assert Power(12) == 10_000 * 100_000_000;
    assert Power(16) == 10_000 * 1_000_000_000_000;
    DigitsBounded(n, 19);
    AsciiIsValid(Ascii(text + Digits(n) + rest));
  }

  /** The message that belongs to a run. */
  predicate Explains(timeout: nat, run: Run, message: Bytes) {
    match run.context
    case DeadlineExceeded => message == Ascii("command timed out after " + Digits(timeout) + " seconds")
    case Canceled => message == Ascii("command execution cancelled")
    case Live =>
      if run.error.None? && run.exitCode == 0 then message == []
      else if run.exitCode >= 0 then message == Ascii("process exited with code " + Digits(run.exitCode) + "")
      else if run.error.None? then message == Ascii("command process failed")
      else
        && message <= ToValid(run.error.value)
        && (|ToValid(run.error.value)| <= MAX_ERROR ==> message == ToValid(run.error.value))
  }

  /** The error message of a run. */
  method Message(timeout: nat, run: Run) returns (message: Bytes)
    requires timeout <= 1800 && Int64(run.exitCode)
    ensures Valid(message) && |message| <= MAX_ERROR && Explains(timeout, run, message)
    ensures message == [] ==> StatusOf(run) == Succeeded || (run.exitCode < 0 && run.error == Some([]))
  {
    hide ToValid, Utf8.Valid, Ascii, Digits;
    MessageIsShort("command timed out after ", timeout, " seconds");
    ShortMessages();
    match run.context
    case DeadlineExceeded => message := Ascii("command timed out after " + Digits(timeout) + " seconds");
    case Canceled => message := Ascii("command execution cancelled");
    case Live =>
      if run.error.Some? || run.exitCode != 0 {
        if run.exitCode >= 0 {
          MessageIsShort("process exited with code ", run.exitCode, "");
          message := Ascii("process exited with code " + Digits(run.exitCode) + "");
        } else if run.error.Some? {
          message := Bounded(run.error.value, MAX_ERROR);
          NothingStays(run.error.value);
        } else {
          message := Ascii("command process failed");
        }
      } else {
        message := [];
        NothingIsValid();
      }
  }

  lemma NothingIsValid()
    ensures Valid([])
  {
  }

  /** Text that is not empty does not become empty. */
  lemma NothingStays(s: Bytes)
    ensures ToValid(s) == [] ==> s == []
  {
  }

  lemma ShortMessages()
    ensures Valid(Ascii("command execution cancelled")) && Ascii("command execution cancelled") != []
    ensures Valid(Ascii("command process failed")) && Ascii("command process failed") != []
    ensures Valid(Ascii("command executor is unavailable"))
  {
    hide Ascii, Valid;
    AsciiIsValid(Ascii("command execution cancelled"));
    AsciiIsValid(Ascii("command process failed"));
    AsciiIsValid(Ascii("command executor is unavailable"));
  }

  /** Executor.Execute. `invalid` is the error of the command's own validation; without a runner
      nothing runs. `chunks` is what the command prints and `run` how it ends. */
  method Execute(timeout: nat, invalid: Option<Bytes>, available: bool, chunks: seq<Bytes>, run: Run)
    returns (c: Completion)
    requires invalid.None? ==> timeout <= 1800
    requires Int64(run.exitCode)
    ensures Reportable(c)
    ensures invalid.None? && available ==>
              && c.status == StatusOf(run) && c.duration == run.elapsed
              && (c.status == TimedOut <==> run.context == DeadlineExceeded)
              && (c.status == Succeeded <==> run.context == Live && run.error == None && run.exitCode == 0)
              && c.exitCode == (if run.exitCode >= 0 then Some(run.exitCode) else None)
              && Captured(chunks, c.output, c.truncated) && Explains(timeout, run, c.error)
    ensures invalid.Some? || !available ==>
              c.status == Failed && c.output == [] && !c.truncated && c.exitCode == None && c.duration == 0
    ensures invalid.Some? ==>
              && c.error <= ToValid(invalid.value)
              && (|ToValid(invalid.value)| <= MAX_ERROR ==> c.error == ToValid(invalid.value))
    ensures invalid.None? && !available ==> c.error == Ascii("command executor is unavailable")
    ensures c.status == Succeeded ==> c.error == []
  {
    hide ToValid, Utf8.Valid, Captured, Ascii, Digits;
    NothingIsValid();
    c := Completion(0, Failed, None, [], false, [], 0);
    if invalid.Some? {
      var message := Bounded(invalid.value, MAX_ERROR);
      return c.(error := message);
    }
    if !available {
      ShortMessages();
      return c.(error := Ascii("command executor is unavailable"));
    }
    var text, truncated := Capture(chunks);
    var message := Message(timeout, run);
    var exitCode := if run.exitCode >= 0 then Some(run.exitCode) else None;
    c := Completion(0, StatusOf(run), exitCode, text, truncated, message, run.elapsed);
  }
}
