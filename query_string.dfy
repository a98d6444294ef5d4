/**
 * The query part of a link (`k1=v1&k2=v2&...`): how the wizard writes one
 * and how PHP reads one back into `$_GET` (split at every `&`, then at the
 * first `=`; later keys win). Percent-encoding is not modelled.
 */
module QueryString {
  import opened PhpValues

  /** `parts` glued together with `c` between neighbours, as PHP's implode. */
  function Join(parts: seq<string>, c: char): string
    requires |parts| > 0
  {
    if |parts| == 1 then parts[0] else parts[0] + [c] + Join(parts[1..], c)
  }

  /** `s` cut at every occurrence of `c`, as PHP's explode: never an empty list. */
  function Split(s: string, c: char): (parts: seq<string>)
    ensures |parts| > 0
  {
    if |s| == 0 then [""]
    else
      var rest := Split(s[1..], c);
      if s[0] == c then [""] + rest else [[s[0]] + rest[0]] + rest[1..]
  }

  lemma {:induction false} SplitWithout(p: string, c: char)
    requires c !in p
    ensures Split(p, c) == [p]
  {
    if |p| > 0 {
      assert c !in p[1..];
      SplitWithout(p[1..], c);
      assert [p[0]] + p[1..] == p;
    }
  }

  lemma {:induction false} SplitAfter(p: string, c: char, rest: string)
    requires c !in p
    ensures Split(p + [c] + rest, c) == [p] + Split(rest, c)
  {
    var s := p + [c] + rest;
    if |p| == 0 {
      assert s[0] == c && s[1..] == rest;
    } else {
      assert s[0] == p[0] && s[1..] == p[1..] + [c] + rest;
      assert c !in p[1..];
      SplitAfter(p[1..], c, rest);
      assert [p[0]] + p[1..] == p;
    }
  }

  /** Splitting undoes joining when no part contains the separator. */
  lemma {:induction false} SplitJoin(parts: seq<string>, c: char)
    requires |parts| > 0
    requires forall i :: 0 <= i < |parts| ==> c !in parts[i]
    ensures Split(Join(parts, c), c) == parts
  {
    if |parts| == 1 {
      SplitWithout(parts[0], c);
    } else {
      SplitJoin(parts[1..], c);
      SplitAfter(parts[0], c, Join(parts[1..], c));
      assert [parts[0]] + parts[1..] == parts;
    }
  }

  /** One `key=value` field. */
  function Field(key: string, value: string): string
  {
    key + "=" + value
  }

  /** A field cut at its first `=`; a field without one has an empty value. */
  function SplitField(f: string): (string, string)
  {
    if |f| == 0 then ("", "")
    else if f[0] == '=' then ("", f[1..])
    else
      var kv := SplitField(f[1..]);
      ([f[0]] + kv.0, kv.1)
  }

  lemma {:induction false} SplitFieldOf(key: string, value: string)
    requires '=' !in key
    ensures SplitField(Field(key, value)) == (key, value)
  {
    var f := Field(key, value);
    if |key| == 0 {
      assert f[0] == '=' && f[1..] == value;
    } else {
      assert f[0] == key[0] && f[1..] == Field(key[1..], value);
      assert '=' !in key[1..];
      SplitFieldOf(key[1..], value);
      assert [key[0]] + key[1..] == key;
    }
  }

  /** A pair the query syntax can carry unchanged. */
  predicate Carriable(pair: (string, string))
  {
    '&' !in pair.0 && '=' !in pair.0 && '&' !in pair.1
  }

  function Fields(pairs: seq<(string, string)>): (fs: seq<string>)
    ensures |fs| == |pairs|
    ensures forall i :: 0 <= i < |pairs| ==> fs[i] == Field(pairs[i].0, pairs[i].1)
  {
    seq(|pairs|, i requires 0 <= i < |pairs| => Field(pairs[i].0, pairs[i].1))
  }

  /** The query string of a link with the given parameters, in order. */
  function Render(pairs: seq<(string, string)>): string
    requires |pairs| > 0
  {
    Join(Fields(pairs), '&')
  }

  /** The parameters PHP reads from a query string, in order. */
  function Parse(query: string): (pairs: seq<(string, string)>)
    ensures |pairs| > 0
  {
    var parts := Split(query, '&');
    seq(|parts|, i requires 0 <= i < |parts| => SplitField(parts[i]))
  }

  /** Reading a rendered query gives back exactly the parameters written into it. */
  lemma ParseRender(pairs: seq<(string, string)>)
    requires |pairs| > 0
    requires forall i :: 0 <= i < |pairs| ==> Carriable(pairs[i])
    ensures Parse(Render(pairs)) == pairs
  {
    var fs := Fields(pairs);
    forall i | 0 <= i < |fs|
      ensures '&' !in fs[i]
    {
      assert fs[i] == pairs[i].0 + "=" + pairs[i].1;
    }
    SplitJoin(fs, '&');
    forall i | 0 <= i < |pairs|
      ensures SplitField(fs[i]) == pairs[i]
    {
      SplitFieldOf(pairs[i].0, pairs[i].1);
    }
  }

  /**
   * The `$_GET` array PHP builds from parsed parameters: a parameter with an
   * empty name is dropped, every value is a string, the last of equal keys
   * wins. Names are taken as they are.
   */
  function QueryVars(pairs: seq<(string, string)>): (vars: map<string, Value>)
    ensures forall k :: k in vars <==> k != "" && exists i :: 0 <= i < |pairs| && pairs[i].0 == k
  {
    if |pairs| == 0 then map[]
    else
      var last := pairs[|pairs| - 1];
      var before := QueryVars(pairs[..|pairs| - 1]);
      assert forall i :: 0 <= i < |pairs| - 1 ==> pairs[..|pairs| - 1][i] == pairs[i];
      if last.0 == "" then before else before[last.0 := Str(last.1)]
  }
}
