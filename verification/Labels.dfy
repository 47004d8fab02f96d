/** Label values and series keys of the text exposition format 0.0.4: escaping, joining and reading back. */
module Labels {
  import opened Common

  type Labels = map<string, string>

  /** String replacement of every occurrence of one character. */
  function ReplaceAll(s: string, c: char, with: string): string {
    if s == "" then "" else (if s[0] == c then with else [s[0]]) + ReplaceAll(s[1..], c, with)
  }

  /** Backslashes first, then quotes, then line feeds. */
  function EscapeLabelValue(value: string): string {
    ReplaceAll(ReplaceAll(ReplaceAll(value, '\\', "\\\\"), '\"', "\\\""), '\n', "\\n")
  }

  function EscapeChar(c: char): string {
    if c == '\\' then "\\\\" else if c == '\"' then "\\\"" else if c == '\n' then "\\n" else [c]
  }

  function EscapeOnePass(value: string): string {
    if value == "" then "" else EscapeChar(value[0]) + EscapeOnePass(value[1..])
  }

  lemma {:induction false} ReplaceAppend(a: string, b: string, c: char, with: string)
    ensures ReplaceAll(a + b, c, with) == ReplaceAll(a, c, with) + ReplaceAll(b, c, with)
    decreases |a|
  {
    if a == "" {
      assert a + b == b;
    } else {
      assert (a + b)[1..] == a[1..] + b;
      ReplaceAppend(a[1..], b, c, with);
    }
  }

  lemma ReplaceOne(d: char, c: char, with: string)
    ensures ReplaceAll([d], c, with) == if d == c then with else [d]
  {
    assert [d][1..] == "";
  }

  lemma ReplaceTwo(d: char, e: char, c: char, with: string)
    ensures ReplaceAll([d, e], c, with) == (if d == c then with else [d]) + if e == c then with else [e]
  {
    assert [d, e][1..] == [e];
    ReplaceOne(e, c, with);
  }

  /** Three passes escape a single character as one pass does. */
  lemma EscapeCharInPasses(d: char)
    ensures ReplaceAll(ReplaceAll(ReplaceAll([d], '\\', "\\\\"), '\"', "\\\""), '\n', "\\n") == EscapeChar(d)
  {
    ReplaceOne(d, '\\', "\\\\");
    if d == '\\' {
      ReplaceTwo('\\', '\\', '\"', "\\\"");
      ReplaceTwo('\\', '\\', '\n', "\\n");
    } else {
      ReplaceOne(d, '\"', "\\\"");
      if d == '\"' { ReplaceTwo('\\', '\"', '\n', "\\n"); } else { ReplaceOne(d, '\n', "\\n"); }
    }
  }

  lemma {:induction false} EscapeIsOnePass(value: string)
    ensures EscapeLabelValue(value) == EscapeOnePass(value)
    decreases |value|
  {
    if value != "" {
      var d, rest := [value[0]], value[1..];
      assert value == d + rest;
      ReplaceAppend(d, rest, '\\', "\\\\");
      var d1, r1 := ReplaceAll(d, '\\', "\\\\"), ReplaceAll(rest, '\\', "\\\\");
      ReplaceAppend(d1, r1, '\"', "\\\"");
      var d2, r2 := ReplaceAll(d1, '\"', "\\\""), ReplaceAll(r1, '\"', "\\\"");
      ReplaceAppend(d2, r2, '\n', "\\n");
      EscapeCharInPasses(value[0]);
      EscapeIsOnePass(rest);
    }
  }

  /******* Reading back *******/

  /** Reads an escaped value up to its closing quote; also what follows the quote. */
  function ReadQuoted(s: string): Option<(string, string)> {
    if s == "" then None
    else if s[0] == '\"' then Some(("", s[1..]))
    else if s[0] == '\\' then
      if |s| < 2 then None
      else
        match ReadQuoted(s[2..])
        case None => None
        case Some((v, rest)) => Some(([if s[1] == 'n' then '\n' else s[1]] + v, rest))
    else
      match ReadQuoted(s[1..])
      case None => None
      case Some((v, rest)) => Some(([s[0]] + v, rest))
  }

  lemma ReadEscapedChar(c: char, tail: string, value: string, rest: string)
    requires ReadQuoted(tail) == Some((value, rest))
    ensures ReadQuoted(EscapeChar(c) + tail) == Some(([c] + value, rest))
  {
    var s := EscapeChar(c) + tail;
    assert s[|EscapeChar(c)|..] == tail;
  }

  lemma {:induction false} ReadEscaped(value: string, rest: string)
    ensures ReadQuoted(EscapeOnePass(value) + "\"" + rest) == Some((value, rest))
    decreases |value|
  {
    if value == "" {
      assert ("\"" + rest)[1..] == rest;
      assert EscapeOnePass(value) + "\"" + rest == "\"" + rest;
    } else {
      var tail := EscapeOnePass(value[1..]) + "\"" + rest;
      ReadEscaped(value[1..], rest);
      ReadEscapedChar(value[0], tail, value[1..], rest);
      assert EscapeOnePass(value) + "\"" + rest == EscapeChar(value[0]) + tail;
      assert [value[0]] + value[1..] == value;
    }
  }

  /** No two values escape alike. */
  lemma EscapeInjective(v: string, w: string)
    ensures EscapeLabelValue(v) == EscapeLabelValue(w) <==> v == w
  {
    EscapeIsOnePass(v);
    EscapeIsOnePass(w);
    ReadEscaped(v, "");
    ReadEscaped(w, "");
  }

  /******* Series keys *******/

  type Pair = (string, string)

  /** The declared labels that are given, in declared order. */
  function Given(labelKeys: seq<string>, labels: Labels): seq<Pair> {
    if labelKeys == [] then []
    else
      var k := labelKeys[0];
      (if k in labels then [(k, labels[k])] else []) + Given(labelKeys[1..], labels)
  }

  function Part(p: Pair): string { p.0 + "=\"" + EscapeLabelValue(p.1) + "\"" }

  function Parts(pairs: seq<Pair>): seq<string> {
    seq(|pairs|, i requires 0 <= i < |pairs| => Part(pairs[i]))
  }

  function Join(parts: seq<string>): string {
    if parts == [] then ""
    else if |parts| == 1 then parts[0]
    else parts[0] + "," + Join(parts[1..])
  }

  function KeyOf(pairs: seq<Pair>): string {
    if pairs == [] then "" else "{" + Join(Parts(pairs)) + "}"
  }

  function SeriesKey(labelKeys: seq<string>, labels: Labels): string {
    KeyOf(Given(labelKeys, labels))
  }

  /** Label names match [a-zA-Z_][a-zA-Z0-9_]*. */
  predicate ValidName(name: string) {
    && name != ""
    && (forall c <- name :: 'a' <= c <= 'z' || 'A' <= c <= 'Z' || c == '_' || '0' <= c <= '9')
    && !('0' <= name[0] <= '9')
  }

  function ReadName(s: string): (string, string) {
    if s == "" || s[0] == '=' then ("", s)
    else var (name, rest) := ReadName(s[1..]); ([s[0]] + name, rest)
  }

  /** Reads the pairs between the braces. */
  function ReadPairs(s: string, fuel: nat): Option<seq<Pair>>
    decreases fuel
  {
    if fuel == 0 then None
    else
      var (name, rest) := ReadName(s);
      if |rest| < 2 || rest[0] != '=' || rest[1] != '\"' then None
      else
        match ReadQuoted(rest[2..])
        case None => None
        case Some((value, after)) =>
          if after == "}" then Some([(name, value)])
          else if after == "" || after[0] != ',' then None
          else
            match ReadPairs(after[1..], fuel - 1)
            case None => None
            case Some(pairs) => Some([(name, value)] + pairs)
  }

  function ReadKey(s: string): Option<seq<Pair>> {
    if s == "" then Some([])
    else if s[0] != '{' then None
    else ReadPairs(s[1..], |s|)
  }

  predicate ValidPairs(pairs: seq<Pair>) { forall p <- pairs :: ValidName(p.0) }

  lemma {:induction false} ReadNameStops(name: string, rest: string)
    requires (forall c <- name :: c != '=') && rest != "" && rest[0] == '='
    ensures ReadName(name + rest) == (name, rest)
    decreases |name|
  {
    if name == "" {
      assert name + rest == rest;
    } else {
      assert (name + rest)[1..] == name[1..] + rest;
      assert [name[0]] + name[1..] == name;
      assert forall c <- name[1..] :: c in name;
      assert name[0] in name;
      ReadNameStops(name[1..], rest);
    }
  }

  /** One part followed by anything is read as its pair. */
  lemma ReadPart(p: Pair, after: string)
    requires ValidName(p.0)
    ensures
      var (name, rest) := ReadName(Part(p) + after);
      name == p.0 && |rest| >= 2 && rest[0] == '=' && rest[1] == '\"' && ReadQuoted(rest[2..]) == Some((p.1, after))
  {
    var quoted := EscapeLabelValue(p.1) + "\"" + after;
    assert Part(p) + after == p.0 + ("=\"" + quoted);
    ReadNameStops(p.0, "=\"" + quoted);
    assert ("=\"" + quoted)[2..] == quoted;
    EscapeIsOnePass(p.1);
    ReadEscaped(p.1, after);
  }

  lemma ReadLast(p: Pair, fuel: nat)
    requires ValidName(p.0) && fuel > 0
    ensures ReadPairs(Part(p) + "}", fuel) == Some([p])
  {
    ReadPart(p, "}");
  }

  lemma ReadMore(p: Pair, tail: string, pairs: seq<Pair>, fuel: nat)
    requires ValidName(p.0) && fuel > 0 && ReadPairs(tail, fuel - 1) == Some(pairs)
    ensures ReadPairs(Part(p) + ("," + tail), fuel) == Some([p] + pairs)
  {
    ReadPart(p, "," + tail);
    assert ("," + tail)[1..] == tail;
  }

  lemma JoinFirst(pairs: seq<Pair>)
    requires pairs != []
    ensures
      var tail := Join(Parts(pairs[1..])) + "}";
      Join(Parts(pairs)) + "}" == if |pairs| == 1 then Part(pairs[0]) + "}" else Part(pairs[0]) + ("," + tail)
  {
    assert Parts(pairs)[0] == Part(pairs[0]) && Parts(pairs)[1..] == Parts(pairs[1..]);
  }

  lemma {:induction false} ReadJoined(pairs: seq<Pair>, fuel: nat)
    requires pairs != [] && ValidPairs(pairs) && fuel >= |pairs|
    ensures ReadPairs(Join(Parts(pairs)) + "}", fuel) == Some(pairs)
    decreases |pairs|
  {
    var p, rest := pairs[0], pairs[1..];
    JoinFirst(pairs);
    assert pairs == [p] + rest;
    if rest == [] {
      ReadLast(p, fuel);
      assert pairs == [p];
    } else {
      ReadJoined(rest, fuel - 1);
      ReadMore(p, Join(Parts(rest)) + "}", rest, fuel);
    }
  }

  lemma {:induction false} JoinLong(pairs: seq<Pair>)
    ensures |Join(Parts(pairs))| >= |pairs|
    decreases |pairs|
  {
    if pairs != [] {
      assert Parts(pairs)[0] == Part(pairs[0]) && Parts(pairs)[1..] == Parts(pairs[1..]);
      JoinLong(pairs[1..]);
    }
  }

  /** The key can be parsed back to its names and values. */
  lemma ReadKeyInverts(pairs: seq<Pair>)
    requires ValidPairs(pairs)
    ensures ReadKey(KeyOf(pairs)) == Some(pairs)
  {
    if pairs != [] {
      JoinLong(pairs);
      ReadJoined(pairs, |KeyOf(pairs)|);
      assert KeyOf(pairs)[1..] == Join(Parts(pairs)) + "}";
    }
  }

  predicate Agree(labelKeys: seq<string>, l: Labels, m: Labels) {
    forall k <- labelKeys :: (k in l <==> k in m) && (k in l ==> l[k] == m[k])
  }

  lemma {:induction false} GivenContains(labelKeys: seq<string>, labels: Labels, p: Pair)
    ensures p in Given(labelKeys, labels) <==> p.0 in labelKeys && p.0 in labels && labels[p.0] == p.1
    decreases |labelKeys|
  {
    if labelKeys != [] {
      GivenContains(labelKeys[1..], labels, p);
      assert labelKeys == [labelKeys[0]] + labelKeys[1..];
    }
  }

  lemma GivenOne(k: string, labels: Labels)
    ensures Given([k], labels) == if k in labels then [(k, labels[k])] else []
  {
    assert [k][1..] == [];
  }

  /** Pairs come in declared order. */
  lemma {:induction false} GivenInOrder(first: seq<string>, rest: seq<string>, labels: Labels)
    ensures Given(first + rest, labels) == Given(first, labels) + Given(rest, labels)
    decreases |first|
  {
    if first == [] {
      assert first + rest == rest;
    } else {
      assert (first + rest)[1..] == first[1..] + rest;
      GivenInOrder(first[1..], rest, labels);
    }
  }

  lemma {:induction false} AgreeGiven(labelKeys: seq<string>, l: Labels, m: Labels)
    requires Agree(labelKeys, l, m)
    ensures Given(labelKeys, l) == Given(labelKeys, m)
    decreases |labelKeys|
  {
    if labelKeys != [] { AgreeGiven(labelKeys[1..], l, m); }
  }

  /** Two label maps share a series exactly when they agree on the declared keys. */
  lemma SeriesKeyInjective(labelKeys: seq<string>, l: Labels, m: Labels)
    requires forall k <- labelKeys :: ValidName(k)
    ensures SeriesKey(labelKeys, l) == SeriesKey(labelKeys, m) <==> Agree(labelKeys, l, m)
  {
    var g, h := Given(labelKeys, l), Given(labelKeys, m);
    forall p <- g ensures ValidName(p.0) { GivenContains(labelKeys, l, p); }
    forall p <- h ensures ValidName(p.0) { GivenContains(labelKeys, m, p); }
    ReadKeyInverts(g);
    ReadKeyInverts(h);
    if g == h {
      forall k <- labelKeys ensures (k in l <==> k in m) && (k in l ==> l[k] == m[k]) {
        if k in l {
          GivenContains(labelKeys, l, (k, l[k]));
          GivenContains(labelKeys, m, (k, l[k]));
        }
        if k in m {
          GivenContains(labelKeys, m, (k, m[k]));
          GivenContains(labelKeys, l, (k, m[k]));
        }
      }
    }
    if Agree(labelKeys, l, m) { AgreeGiven(labelKeys, l, m); }
  }

  /** The key of a rendered bucket line: the series key with the bound added. */
  function BucketKey(key: string, le: string): string {
    if key != "" then key[..|key| - 1] + ",le=\"" + le + "\"}" else "{le=\"" + le + "\"}"
  }

  lemma {:induction false} JoinSnoc(parts: seq<string>, last: string)
    requires parts != []
    ensures Join(parts + [last]) == Join(parts) + "," + last
    decreases |parts|
  {
    if |parts| == 1 {
      assert parts + [last] == [parts[0], last];
      assert [parts[0], last][1..] == [last];
    } else {
      assert (parts + [last])[1..] == parts[1..] + [last];
      JoinSnoc(parts[1..], last);
    }
  }

  lemma BucketKeyOfBraces(inner: string, le: string)
    ensures BucketKey("{" + inner + "}", le) == "{" + (inner + "," + ("le=\"" + le + "\"")) + "}"
  {
    var key := "{" + inner + "}";
    assert key[..|key| - 1] == "{" + inner;
  }

  lemma BucketKeyExtends(pairs: seq<Pair>, bound: string)
    ensures BucketKey(KeyOf(pairs), EscapeLabelValue(bound)) == KeyOf(pairs + [("le", bound)])
  {
    var le := EscapeLabelValue(bound);
    var extra := ("le", bound);
    assert Part(extra) == "le=\"" + le + "\"";
    assert Parts(pairs + [extra]) == Parts(pairs) + [Part(extra)];
    if pairs == [] {
      assert Join([Part(extra)]) == Part(extra);
    } else {
      JoinSnoc(Parts(pairs), Part(extra));
      BucketKeyOfBraces(Join(Parts(pairs)), le);
    }
  }

  /** A bucket line's key reads back as the series' labels followed by its bound. */
  lemma BucketKeyReadsBack(labelKeys: seq<string>, labels: Labels, bound: string)
    requires forall k <- labelKeys :: ValidName(k)
    ensures ReadKey(BucketKey(SeriesKey(labelKeys, labels), EscapeLabelValue(bound))) == Some(Given(labelKeys, labels) + [("le", bound)])
  {
    var pairs := Given(labelKeys, labels);
    forall p <- pairs ensures ValidName(p.0) { GivenContains(labelKeys, labels, p); }
    assert ValidName("le");
    ReadKeyInverts(pairs + [("le", bound)]);
    BucketKeyExtends(pairs, bound);
  }

  lemma InfinityIsPlain()
    ensures EscapeLabelValue("+Inf") == "+Inf"
  {
    var s := "+Inf";
    EscapeIsOnePass(s);
    assert s[1..] == "Inf" && s[1..][1..] == "nf" && s[1..][1..][1..] == "f" && s[1..][1..][1..][1..] == "";
    assert EscapeOnePass("f") == "f";
    assert EscapeOnePass("nf") == "nf";
    assert EscapeOnePass("Inf") == "Inf";
  }

  lemma PartsFrom(labelKeys: seq<string>, labels: Labels, i: nat)
    requires i < |labelKeys|
    ensures
      var k, rest := labelKeys[i], Parts(Given(labelKeys[i + 1..], labels));
      Parts(Given(labelKeys[i..], labels)) == if k in labels then [Part((k, labels[k]))] + rest else rest
  {
    var k, rest := labelKeys[i], Given(labelKeys[i + 1..], labels);
    assert labelKeys[i..][1..] == labelKeys[i + 1..];
    if k in labels {
      assert Parts([(k, labels[k])] + rest) == [Part((k, labels[k]))] + Parts(rest);
    } else {
      assert [] + rest == rest;
    }
  }

  /** seriesKey: the parts are collected in a growing list and joined. */
  method BuildSeriesKey(labelKeys: seq<string>, labels: Labels) returns (key: string)
    ensures key == SeriesKey(labelKeys, labels)
  {
    var parts: seq<string> := [];
    for i := 0 to |labelKeys|
      invariant parts + Parts(Given(labelKeys[i..], labels)) == Parts(Given(labelKeys, labels))
    {
      var k := labelKeys[i];
      PartsFrom(labelKeys, labels, i);
      if k in labels {
        var part := k + "=\"" + EscapeLabelValue(labels[k]) + "\"";
        assert part == Part((k, labels[k]));
        parts := parts + [part];
      }
    }
    assert labelKeys[|labelKeys|..] == [];
    assert parts == Parts(Given(labelKeys, labels));
    if |parts| == 0 { return ""; }
    return "{" + Join(parts) + "}";
  }
}
