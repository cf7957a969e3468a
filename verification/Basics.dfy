/** Option, Result, concatenation of lists of lists, decimal numerals and the
    string trimming operations the rest of the model builds on. */
module Basics {

  datatype Option<+T> = None | Some(value: T)

  datatype Result<+T, +E> = Ok(value: T) | Err(error: E)

  /** An optional list, empty when absent. */
  function OrEmpty<T>(o: Option<seq<T>>): seq<T> {
    if o.Some? then o.value else []
  }

  /** The concatenation of all parts, in order. */
  function Flatten<T>(parts: seq<seq<T>>): seq<T> {
    if parts == [] then [] else parts[0] + Flatten(parts[1..])
  }

  lemma {:induction false} FlattenAppend<T>(a: seq<seq<T>>, b: seq<seq<T>>)
    ensures Flatten(a + b) == Flatten(a) + Flatten(b)
  {
    if a == [] {
      assert a + b == b;
    } else {
      FlattenAppend(a[1..], b);
      DropFirst(a, b);
      Associative(a[0], Flatten(a[1..]), Flatten(b));
    }
  }

  lemma DropFirst<T>(a: seq<T>, b: seq<T>)
    requires a != []
    ensures (a + b)[0] == a[0] && (a + b)[1..] == a[1..] + b
  {
  }

  lemma Associative<T>(a: seq<T>, b: seq<T>, c: seq<T>)
    ensures (a + b) + c == a + (b + c)
  {
  }

  lemma FlattenPush<T>(a: seq<seq<T>>, x: seq<T>)
    ensures Flatten(a + [x]) == Flatten(a) + x
  {
    FlattenAppend(a, [x]);
    assert Flatten([x]) == x + Flatten([]);
  }

  /** Rust's `char::is_whitespace`: the Unicode White_Space property. */
  predicate IsWhitespace(ch: char) {
    var c := ch as int;
    || 0x09 <= c <= 0x0D || c == 0x20 || c == 0x85 || c == 0xA0 || c == 0x1680
    || 0x2000 <= c <= 0x200A || c == 0x2028 || c == 0x2029 || c == 0x202F
    || c == 0x205F || c == 0x3000
  }

  function TrimStart(s: string): string {
    if s != [] && IsWhitespace(s[0]) then TrimStart(s[1..]) else s
  }

  function TrimEnd(s: string): string {
    if s != [] && IsWhitespace(s[|s| - 1]) then TrimEnd(s[..|s| - 1]) else s
  }

  function Trim(s: string): string {
    TrimEnd(TrimStart(s))
  }

  /** `trim().is_empty()` */
  predicate IsBlank(s: string) {
    Trim(s) == []
  }

  lemma {:induction false} TrimStartAppend(head: string, rest: string)
    ensures TrimStart(head) != [] ==> TrimStart(head + rest) == TrimStart(head) + rest
    ensures TrimStart(head) == [] ==> TrimStart(head + rest) == TrimStart(rest)
  {
    if head == [] {
      assert head + rest == rest;
    } else if IsWhitespace(head[0]) {
      assert (head + rest)[1..] == head[1..] + rest;
      TrimStartAppend(head[1..], rest);
    }
  }

  lemma TrimEndDropsBlank(s: string, ch: char)
    requires IsWhitespace(ch)
    ensures TrimEnd(s + [ch]) == TrimEnd(s)
  {
    assert (s + [ch])[..|s|] == s;
  }

  lemma {:induction false} TrimEndIsPrefix(s: string)
    ensures TrimEnd(s) <= s
  {
    if s != [] && IsWhitespace(s[|s| - 1]) {
      TrimEndIsPrefix(s[..|s| - 1]);
    }
  }

  /** Trimming a prefix leaves a prefix of what trimming the whole leaves. */
  lemma {:induction false} TrimEndOfPrefix(head: string, rest: string)
    ensures TrimEnd(head) <= TrimEnd(head + rest)
  {
    if rest == [] {
      assert head + rest == head;
    } else {
      var n := |rest| - 1;
      if IsWhitespace(rest[n]) {
        assert (head + rest)[..|head| + n] == head + rest[..n];
        TrimEndOfPrefix(head, rest[..n]);
      } else {
        TrimEndIsPrefix(head);
      }
    }
  }

  /** Decimal digits of a number, as `format!("{n}")` prints it. */
  function Numeral(n: nat): (r: string)
    ensures r != [] && (|r| == 1 <==> n < 10)
  {
    if n < 10 then [Digit(n)] else Numeral(n / 10) + [Digit(n % 10)]
  }

  function Digit(d: nat): char
    requires d < 10
  {
    ('0' as int + d) as char
  }

  lemma {:induction false} NumeralInjective(m: nat, n: nat)
    requires Numeral(m) == Numeral(n)
    ensures m == n
    decreases m
  {
    var last := |Numeral(m)| - 1;
    assert Numeral(m)[last] == Digit(m % 10) && Numeral(n)[last] == Digit(n % 10);
    if 10 <= m {
      assert Numeral(m)[..last] == Numeral(m / 10) && Numeral(n)[..last] == Numeral(n / 10);
      NumeralInjective(m / 10, n / 10);
    }
  }
}
