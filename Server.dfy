/** Two pure pieces of the web server: the one-line summary written for every
    finished request under /api, and the status and message the error handler
    answers with. */
module Server {

  datatype Option<T> = None | Some(value: T)

  /** Longest log line written, counted in characters. */
  const MaxLogLine: nat := 80
  /** The horizontal ellipsis that marks a shortened line. */
  const Ellipsis: char := '…'
  const DefaultStatus: int := 500
  const DefaultMessage: string := "Internal Server Error"

  /** The body a handler answered with, as far as logging sees it: its JSON
      text, and whether the value was truthy (an object, a non-empty string, a
      non-zero number or `true`). */
  datatype Captured = Captured(json: string, truthy: bool)

  // ---------------------------------------------------------------- numbers

  predicate IsDigit(c: char)
  {
    '0' <= c <= '9'
  }

  function DigitChar(d: nat): (c: char)
    requires d < 10
    ensures IsDigit(c) && (c as int) - ('0' as int) == d
  {
    "0123456789"[d]
  }

  /** Decimal digits of a natural number, most significant first. */
  function NatToString(n: nat): (s: string)
    ensures |s| >= 1 && forall i :: 0 <= i < |s| ==> IsDigit(s[i])
    ensures s[0] == '0' ==> n == 0
  {
    if n < 10 then [DigitChar(n)] else NatToString(n / 10) + [DigitChar(n % 10)]
  }

  /** A number as JavaScript writes it into a template string: decimal, with a
      leading minus sign when negative. */
  function IntToString(n: int): string
  {
    if n < 0 then "-" + NatToString(-n) else NatToString(n)
  }

  predicate AllDigits(s: string)
  {
    forall i :: 0 <= i < |s| ==> IsDigit(s[i])
  }

  /** Decimal digits, with a leading minus sign or without. */
  predicate IsNumeral(s: string)
  {
    if |s| >= 1 && s[0] == '-' then |s| >= 2 && AllDigits(s[1..]) else |s| >= 1 && AllDigits(s)
  }

  /** The value of a string of decimal digits. */
  function DigitsValue(s: string): nat
    requires AllDigits(s)
  {
    if s == [] then 0
    else DigitsValue(s[..|s| - 1]) * 10 + ((s[|s| - 1] as int) - ('0' as int))
  }

  /** Reading a decimal numeral back. */
  function ParseInt(s: string): int
    requires IsNumeral(s)
  {
    if s[0] == '-' then -(DigitsValue(s[1..]) as int) else DigitsValue(s)
  }

  /** Writing a natural number in decimal and reading it back gives it again. */
  lemma {:induction false} NatToStringRoundTrip(n: nat)
    ensures DigitsValue(NatToString(n)) == n
  {
    if n >= 10 {
      NatToStringRoundTrip(n / 10);
      var s := NatToString(n);
      assert s[..|s| - 1] == NatToString(n / 10);
    }
  }

  /** The status code and the duration can be read back from their text. */
  lemma IntToStringRoundTrip(n: int)
    ensures IsNumeral(IntToString(n))
    ensures ParseInt(IntToString(n)) == n
  {
    if n < 0 {
      NatToStringRoundTrip(-n);
      assert IntToString(n)[1..] == NatToString(-n);
    } else {
      NatToStringRoundTrip(n);
    }
  }

  // ---------------------------------------------------------------- log line

  /** Requests are logged only when their path starts with "/api". */
  predicate IsApiPath(path: string)
  {
    "/api" <= path
  }

  /** The log line before it is shortened: method, path, status code and
      duration, then the JSON body when the handler answered with a truthy one. */
  function FullLine(verb: string, path: string, status: int, duration: int, body: Option<Captured>): string
  {
    var base := verb + " " + path + " " + IntToString(status) + " in " + IntToString(duration) + "ms";
    if body.Some? && body.value.truthy then base + " :: " + body.value.json else base
  }

  /** A line of at most 80 characters is kept as it is; a longer one keeps its
      first 79 characters and gets an ellipsis, so it is exactly 80 long. */
  function Truncate(line: string): (r: string)
    ensures |r| <= MaxLogLine
    ensures |line| <= MaxLogLine ==> r == line
    ensures |line| > MaxLogLine ==>
              && |r| == MaxLogLine
              && r[..MaxLogLine - 1] == line[..MaxLogLine - 1]
              && r[MaxLogLine - 1] == Ellipsis
  {
    if |line| > MaxLogLine then line[..MaxLogLine - 1] + [Ellipsis] else line
  }

  /** A line already shortened is not shortened again. */
  lemma TruncateIdempotent(line: string)
    ensures Truncate(Truncate(line)) == Truncate(line)
  {
  }

  /** The line written when a request finishes: nothing for paths outside
      /api; otherwise the full line, shortened to 80 characters. */
  method FormatLogLine(verb: string, path: string, status: int, duration: int, body: Option<Captured>)
    returns (line: Option<string>)
    ensures line.Some? <==> IsApiPath(path)
    ensures line.Some? ==> line.value == Truncate(FullLine(verb, path, status, duration, body))
  {
    if !IsApiPath(path) {
      return None;
    }
    var logLine := verb + " " + path + " " + IntToString(status) + " in " + IntToString(duration) + "ms";
    if body.Some? && body.value.truthy {
      logLine := logLine + " :: " + body.value.json;
    }
    if |logLine| > MaxLogLine {
      logLine := logLine[..MaxLogLine - 1] + [Ellipsis];
    }
    return Some(logLine);
  }

  /** Every line written is at most 80 characters long and starts with the
      method and path of the request, as far as they fit before the cut. */
  lemma LogLineShape(verb: string, path: string, status: int, duration: int, body: Option<Captured>)
    requires IsApiPath(path)
    ensures var full := FullLine(verb, path, status, duration, body);
            var line := Truncate(full);
            var head := verb + " " + path + " ";
            && |line| <= MaxLogLine
            && (|head| < MaxLogLine ==> line[..|head|] == head)
  {
    var full := FullLine(verb, path, status, duration, body);
    var head := verb + " " + path + " ";
    assert full[..|head|] == head;
  }

  // ---------------------------------------------------------------- errors

  /** JavaScript truthiness of a numeric property that may be absent. */
  predicate Truthy(v: Option<int>)
  {
    v.Some? && v.value != 0
  }

  /** The first truthy value of a chain of `||`, or the last resort. */
  function FirstTruthy(chain: seq<Option<int>>, fallback: int): int
  {
    if chain == [] then fallback
    else if Truthy(chain[0]) then chain[0].value
    else FirstTruthy(chain[1..], fallback)
  }

  /** The status the error handler answers with: the error's `status` if set
      and non-zero, else its `statusCode` if set and non-zero, else 500. It is
      never 0. */
  function ErrorStatus(status: Option<int>, statusCode: Option<int>): (code: int)
    ensures code != 0
    ensures || (status.Some? && code == status.value)
            || (statusCode.Some? && code == statusCode.value)
            || code == DefaultStatus
  {
    if Truthy(status) then status.value
    else if Truthy(statusCode) then statusCode.value
    else DefaultStatus
  }

  /** The status chain is the left-to-right `||` over `status` and `statusCode`
      with 500 as the last resort. */
  lemma ErrorStatusIsFirstTruthy(status: Option<int>, statusCode: Option<int>)
    ensures ErrorStatus(status, statusCode) == FirstTruthy([status, statusCode], DefaultStatus)
  {
    assert [status, statusCode][1..] == [statusCode];
    assert [statusCode][1..] == [];
    assert FirstTruthy([statusCode], DefaultStatus)
        == if Truthy(statusCode) then statusCode.value else FirstTruthy([], DefaultStatus);
  }

  /** The message the error handler answers with: the error's own message if it
      has a non-empty one, else "Internal Server Error". It is never empty. */
  function ErrorMessage(message: Option<string>): (m: string)
    ensures m != []
    ensures message.Some? && message.value != [] ==> m == message.value
    ensures message.None? || message.value == [] ==> m == DefaultMessage
  {
    if message.Some? && message.value != [] then message.value else DefaultMessage
  }
}
