/**
 * The few JavaScript value semantics the request handlers depend on:
 * what a parsed JSON body can hold, truthiness (`!v`), `typeof v === 'string'`,
 * `Number.parseFloat` and `Array.prototype.join`.
 */
module Js {
  import opened Wrappers

  /**
   * A value read out of a parsed JSON request body; a key that is absent
   * reads as `undefined`. JSON carries no NaN, so a number is an exact real.
   * An object or array is kept as the text `String(v)` makes of it, which is
   * all `Number.parseFloat` looks at.
   */
  datatype Value =
    | Undefined
    | Null
    | Bool(b: bool)
    | Number(n: real)
    | Str(s: string)
    | Composite(text: string)

  /** JavaScript truthiness: `!v` is false exactly for these values. */
  predicate Truthy(v: Value) {
    match v
    case Undefined => false
    case Null => false
    case Bool(b) => b
    case Number(n) => n != 0.0
    case Str(s) => s != ""
    case Composite(_) => true
  }

  /** `String(v)` for every value that is not a number. */
  function Text(v: Value): string
    requires !v.Number?
  {
    match v
    case Undefined => "undefined"
    case Null => "null"
    case Bool(b) => if b then "true" else "false"
    case Str(s) => s
    case Composite(text) => text
  }

  /**
   * `Number.parseFloat(v)`: a number reads back as itself; anything else is
   * turned into text and `parseText` reads the longest decimal prefix of it,
   * None standing for NaN.
   */
  function ParseFloat(v: Value, parseText: string -> Option<real>): Option<real>
  {
    if v.Number? then Some(v.n) else parseText(Text(v))
  }

  /** `parts.join(sep)`. */
  function Join(parts: seq<string>, sep: string): string
  {
    if |parts| == 0 then ""
    else if |parts| == 1 then parts[0]
    else parts[0] + sep + Join(parts[1..], sep)
  }

  /** `part` stands in `text` starting at offset `o`. */
  predicate StandsAt(text: string, o: nat, part: string) {
    o + |part| <= |text| && forall i :: 0 <= i < |part| ==> text[o + i] == part[i]
  }

  /** Where `parts[k]` stands in `Join(parts, sep)`. */
  function JoinOffset(parts: seq<string>, sep: string, k: nat): (o: nat)
    requires k < |parts|
    ensures StandsAt(Join(parts, sep), o, parts[k])
    decreases k
  {
    if k == 0 then 0
    else
      var o' := JoinOffset(parts[1..], sep, k - 1);
      var head := parts[0] + sep;
      assert Join(parts, sep) == head + Join(parts[1..], sep);
      StandsAtShift(Join(parts, sep), head, Join(parts[1..], sep), o', |head| + o', parts[k]);
      |head| + o'
  }

  /** Each part starts one separator after the previous part ends. */
  lemma {:induction false} JoinOffsetNext(parts: seq<string>, sep: string, k: nat)
    requires k + 1 < |parts|
    ensures JoinOffset(parts, sep, k) + |parts[k]| + |sep| == JoinOffset(parts, sep, k + 1)
  {
    if k > 0 {
      JoinOffsetNext(parts[1..], sep, k - 1);
      assert parts[1..][k - 1] == parts[k];
    }
  }

  /** The lengths of all parts together. */
  function TotalLength(parts: seq<string>): nat {
    if |parts| == 0 then 0 else |parts[0]| + TotalLength(parts[1..])
  }

  /** The joined text is the parts with one separator between each two. */
  lemma {:induction false} JoinSize(parts: seq<string>, sep: string)
    requires 0 < |parts|
    ensures |Join(parts, sep)| == TotalLength(parts) + |sep| * (|parts| - 1)
  {
    if 1 < |parts| {
      JoinSize(parts[1..], sep);
      assert |sep| * (|parts| - 1) == |sep| + |sep| * (|parts| - 2);
    }
  }

  /** The joined text ends with the last part. */
  lemma {:induction false} JoinLength(parts: seq<string>, sep: string)
    requires 0 < |parts|
    ensures |Join(parts, sep)| == JoinOffset(parts, sep, |parts| - 1) + |parts[|parts| - 1]|
  {
    if 1 < |parts| {
      JoinLength(parts[1..], sep);
      assert parts[1..][|parts| - 2] == parts[|parts| - 1];
    }
  }

  /** Between consecutive parts stands exactly `sep`. */
  lemma {:induction false} JoinSeparates(parts: seq<string>, sep: string, k: nat)
    requires k + 1 < |parts|
    ensures StandsAt(Join(parts, sep), JoinOffset(parts, sep, k) + |parts[k]|, sep)
  {
    if k == 0 {
      SeparatorFirst(parts, sep);
    } else {
      JoinSeparates(parts[1..], sep, k - 1);
      SeparatorShifts(parts, sep, k);
    }
  }

  /** With any prefix in front of the joined text, the prefix and each part still stand where expected. */
  lemma JoinPartAfter(prefix: string, parts: seq<string>, sep: string, k: nat)
    requires k < |parts|
    ensures StandsAt(prefix + Join(parts, sep), 0, prefix)
    ensures StandsAt(prefix + Join(parts, sep), |prefix| + JoinOffset(parts, sep, k), parts[k])
  {
    StandsAtStart(prefix, Join(parts, sep));
    StandsAtShift(prefix + Join(parts, sep), prefix, Join(parts, sep), JoinOffset(parts, sep, k),
                  |prefix| + JoinOffset(parts, sep, k), parts[k]);
  }

  /** The same holds with any prefix in front of the joined text. */
  lemma JoinSeparatesAfter(prefix: string, parts: seq<string>, sep: string, k: nat)
    requires k + 1 < |parts|
    ensures StandsAt(prefix + Join(parts, sep), |prefix| + JoinOffset(parts, sep, k) + |parts[k]|, sep)
  {
    JoinSeparates(parts, sep, k);
    StandsAtShift(prefix + Join(parts, sep), prefix, Join(parts, sep), JoinOffset(parts, sep, k) + |parts[k]|,
                  |prefix| + JoinOffset(parts, sep, k) + |parts[k]|, sep);
  }

  lemma SeparatorFirst(parts: seq<string>, sep: string)
    requires 1 < |parts|
    ensures StandsAt(Join(parts, sep), |parts[0]|, sep)
  {
    assert Join(parts, sep) == parts[0] + sep + Join(parts[1..], sep);
    StandsInMiddle(Join(parts, sep), parts[0], sep, Join(parts[1..], sep));
  }

  /** The separator after `parts[k]` is the one after `parts[1..][k - 1]`, moved past the head. */
  lemma SeparatorShifts(parts: seq<string>, sep: string, k: nat)
    requires 0 < k && k + 1 < |parts|
    requires StandsAt(Join(parts[1..], sep), JoinOffset(parts[1..], sep, k - 1) + |parts[k]|, sep)
    ensures StandsAt(Join(parts, sep), JoinOffset(parts, sep, k) + |parts[k]|, sep)
  {
    assert Join(parts, sep) == (parts[0] + sep) + Join(parts[1..], sep);
    StandsAtShift(Join(parts, sep), parts[0] + sep, Join(parts[1..], sep),
                  JoinOffset(parts[1..], sep, k - 1) + |parts[k]|, JoinOffset(parts, sep, k) + |parts[k]|, sep);
  }

  /** What stands in `rest` at `o` stands in `head + rest` at `|head| + o`. */
  lemma StandsAtShift(text: string, head: string, rest: string, o: nat, o': nat, part: string)
    requires text == head + rest && o' == |head| + o
    requires StandsAt(rest, o, part)
    ensures StandsAt(text, o', part)
  {
  }

  /** `b` stands in `a + b + c` right after `a`. */
  lemma StandsInMiddle(text: string, a: string, b: string, c: string)
    requires text == a + b + c
    ensures StandsAt(text, |a|, b)
  {
    assert text == a + (b + c);
    StandsAtStart(b, c);
    StandsAtShift(text, a, b + c, 0, |a|, b);
  }

  /** A text begins with its prefix. */
  lemma StandsAtStart(prefix: string, rest: string)
    ensures StandsAt(prefix + rest, 0, prefix)
  {
  }
}
