/**
 * Captured output: the accumulated chunks of one stream, the optional
 * caller transform, and the default line-ending normalisation
 * `text.replace(/\r\n/g, "\n").replace(/\r/g, "\n")`.
 *
 * Byte decoding is not modelled: chunks are text already.  A caller's
 * `format` or `normalizeText` function is caller code and stays
 * symbolic (its identity and its argument).
 */
module Text {
  import opened JsValues
  import opened Wrappers

  /** `.replace(/\r\n/g, "\n")`: a left-to-right scan for non-overlapping CRLF pairs. */
  function ReplaceCrLf(s: string): string
    decreases |s|
  {
    if s == [] then []
    else if |s| >= 2 && s[0] == '\r' && s[1] == '\n' then "\n" + ReplaceCrLf(s[2..])
    else [s[0]] + ReplaceCrLf(s[1..])
  }

  /** `.replace(/\r/g, "\n")` */
  function ReplaceCr(s: string): (r: string)
    ensures |r| == |s|
    ensures '\r' !in r
  {
    if s == [] then [] else [if s[0] == '\r' then '\n' else s[0]] + ReplaceCr(s[1..])
  }

  /** The default normalisation of captured text. */
  function Normalize(s: string): string {
    ReplaceCr(ReplaceCrLf(s))
  }

  /** Reference definition: one pass in which CRLF, or a lone CR, becomes LF. */
  function LineEndingsToLf(s: string): string
    decreases |s|
  {
    if s == [] then []
    else if s[0] == '\r' && |s| >= 2 && s[1] == '\n' then "\n" + LineEndingsToLf(s[2..])
    else if s[0] == '\r' then "\n" + LineEndingsToLf(s[1..])
    else [s[0]] + LineEndingsToLf(s[1..])
  }

  /** The two-pass replacement is the one-pass line-ending rewrite. */
  lemma {:induction false} NormalizeIsLineEndingsToLf(s: string)
    ensures Normalize(s) == LineEndingsToLf(s)
    decreases |s|
  {
    if s == [] {
    } else if |s| >= 2 && s[0] == '\r' && s[1] == '\n' {
      NormalizeIsLineEndingsToLf(s[2..]);
      assert ReplaceCrLf(s) == "\n" + ReplaceCrLf(s[2..]);
      assert ("\n" + ReplaceCrLf(s[2..]))[1..] == ReplaceCrLf(s[2..]);
    } else {
      NormalizeIsLineEndingsToLf(s[1..]);
      assert ReplaceCrLf(s) == [s[0]] + ReplaceCrLf(s[1..]);
      assert ([s[0]] + ReplaceCrLf(s[1..]))[1..] == ReplaceCrLf(s[1..]);
    }
  }

  /** Normalised text holds no carriage return. */
  lemma NormalizeHasNoCr(s: string)
    ensures '\r' !in Normalize(s)
  {
  }

  lemma {:induction false} ReplaceCrLfWithoutCr(s: string)
    requires '\r' !in s
    ensures ReplaceCrLf(s) == s
    decreases |s|
  {
    if s != [] {
      assert '\r' !in s[1..];
      ReplaceCrLfWithoutCr(s[1..]);
    }
  }

  lemma {:induction false} ReplaceCrWithoutCr(s: string)
    requires '\r' !in s
    ensures ReplaceCr(s) == s
    decreases |s|
  {
    if s != [] {
      assert '\r' !in s[1..];
      ReplaceCrWithoutCr(s[1..]);
    }
  }

  /** Text without a carriage return is left as it is. */
  lemma NormalizeWithoutCr(s: string)
    requires '\r' !in s
    ensures Normalize(s) == s
  {
    ReplaceCrLfWithoutCr(s);
    ReplaceCrWithoutCr(s);
  }

  /** Normalising twice is normalising once. */
  lemma NormalizeIdempotent(s: string)
    ensures Normalize(Normalize(s)) == Normalize(s)
  {
    NormalizeWithoutCr(Normalize(s));
  }

  /** How a captured stream stopped: its `end` event or its `error` event. */
  datatype StreamEnd = Ended | Failed(error: string)

  /** The data chunks a stream delivered, then how it stopped. */
  datatype Stream = Stream(chunks: seq<string>, end: StreamEnd)

  /** The value a capture resolves to. */
  datatype Captured =
    | Text(text: string)                             // decoded, normalised or not
    | Formatted(format: nat, raw: string)            // what the caller's `format` returns on the raw data
    | CustomNormalized(normalizer: nat, text: string) // what the caller's `normalizeText` returns on the text

  /** `Buffer.concat(chunks)` */
  function Concat(chunks: seq<string>): (r: string)
    ensures |chunks| == 1 ==> r == chunks[0]
    decreases |chunks|
  {
    if chunks == [] then [] else Concat(chunks[..|chunks| - 1]) + chunks[|chunks| - 1]
  }

  /** `_stream(s, format)` with the options' `normalizeText`. */
  function CaptureValue(s: Stream, format: Value, normalizeText: Value): (r: Result<Captured>)
    ensures r.Err? <==> s.end.Failed?
    ensures r.Err? ==> r.error == s.end.error
    ensures r.Ok? && !format.Func? && Truthy(normalizeText) && !normalizeText.Func?
            ==> r.value == Text(Normalize(Concat(s.chunks))) && '\r' !in r.value.text
    ensures r.Ok? && !format.Func? && !Truthy(normalizeText) ==> r.value == Text(Concat(s.chunks))
    ensures r.Ok? && format.Func? ==> r.value == Formatted(format.id, Concat(s.chunks))
    ensures r.Ok? && !format.Func? && normalizeText.Func? ==> r.value == CustomNormalized(normalizeText.id, Concat(s.chunks))
  {
    match s.end
    case Failed(e) => Err(e)
    case Ended =>
      var raw := Concat(s.chunks);
      if format.Func? then Ok(Formatted(format.id, raw))
      else if Truthy(normalizeText) then
        if normalizeText.Func? then Ok(CustomNormalized(normalizeText.id, raw))
        else
          NormalizeHasNoCr(raw);
          Ok(Text(Normalize(raw)))
      else Ok(Text(raw))
  }
}
