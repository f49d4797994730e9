/** Routing keys as dotted segments, and the topic exchange's wildcard matching. */
module Topic {

  function Split(s: string): (r: seq<string>)
    ensures |r| > 0
    ensures forall i :: 0 <= i < |r| ==> '.' !in r[i]
  {
    if s == "" then [""]
    else
      var rest := Split(s[1..]);
      if s[0] == '.' then [""] + rest else [[s[0]] + rest[0]] + rest[1..]
  }

  function Join(parts: seq<string>): string
    requires |parts| > 0
  {
    if |parts| == 1 then parts[0] else parts[0] + "." + Join(parts[1..])
  }

  lemma {:induction false} JoinSplit(s: string)
    ensures Join(Split(s)) == s
  {
    if s != "" {
      JoinSplit(s[1..]);
      var rest := Split(s[1..]);
      if s[0] == '.' {
        assert Split(s)[1..] == rest;
      } else {
        assert Split(s)[1..] == rest[1..];
        assert s == [s[0]] + s[1..];
      }
    }
  }

  /** Splitting is injective. */
  lemma SplitInjective(a: string, b: string)
    ensures Split(a) == Split(b) <==> a == b
  {
    JoinSplit(a);
    JoinSplit(b);
  }

  lemma {:induction false} SplitCons(part: string, rest: string)
    requires '.' !in part
    ensures Split(part + "." + rest) == [part] + Split(rest)
  {
    var s := part + "." + rest;
    if part == "" {
      assert s[1..] == rest;
    } else {
      assert s[1..] == part[1..] + "." + rest;
      SplitCons(part[1..], rest);
      assert part == [part[0]] + part[1..];
    }
  }

  lemma {:induction false} SplitWhole(part: string)
    requires '.' !in part
    ensures Split(part) == [part]
  {
    if part != "" {
      SplitWhole(part[1..]);
      assert part == [part[0]] + part[1..];
    }
  }

  lemma {:induction false} SplitJoin(parts: seq<string>)
    requires |parts| > 0 && forall i :: 0 <= i < |parts| ==> '.' !in parts[i]
    ensures Split(Join(parts)) == parts
  {
    if |parts| == 1 {
      SplitWhole(parts[0]);
    } else {
      SplitJoin(parts[1..]);
      SplitCons(parts[0], Join(parts[1..]));
    }
  }

  // ---------------------------------------------------------------- matching

  /** The meaning of a binding key: `*` stands for one segment, `#` for any number of them, anything else for itself. */
  ghost predicate Means(binding: seq<string>, routing: seq<string>)
    decreases |binding|
  {
    if binding == [] then routing == []
    else if binding[0] == "#" then exists k :: 0 <= k <= |routing| && Means(binding[1..], routing[k..])
    else routing != [] && Fits(binding[0], routing[0]) && Means(binding[1..], routing[1..])
  }

  predicate Fits(token: string, segment: string) {
    token == "*" || token == segment
  }

  /** What the matching loop answers from a given point on. */
  predicate LoopMatch(binding: seq<string>, routing: seq<string>)
    decreases |binding|
  {
    if binding == [] || routing == [] then (binding == ["#"] || (binding == [] && routing == []))
    else if Fits(binding[0], routing[0]) then LoopMatch(binding[1..], routing[1..])
    else binding == ["#"]
  }

  method Match(bindingKey: string, routingKey: string) returns (matched: bool)
    ensures matched <==> LoopMatch(Split(bindingKey), Split(routingKey))
  {
    var binding, routing := Split(bindingKey), Split(routingKey);
    var bi, ri := 0, 0;
    while bi < |binding| && ri < |routing|
      invariant bi <= |binding| && ri <= |routing|
      invariant LoopMatch(binding[bi..], routing[ri..]) <==> LoopMatch(binding, routing)
    {
      var btoken, rtoken := binding[bi], routing[ri];
      assert binding[bi..][1..] == binding[bi + 1..] && routing[ri..][1..] == routing[ri + 1..];
      if btoken == rtoken || btoken == "*" {
        bi, ri := bi + 1, ri + 1;
      } else if btoken == "#" {
        return bi == |binding| - 1;
      } else {
        return false;
      }
    }
    if bi == |binding| - 1 && binding[bi] == "#" {
      assert binding[bi..] == ["#"];
      return true;
    }
    return bi == |binding| && ri == |routing|;
  }

  /** `#` stands in the last place only, which is what binding-key validation enforces. */
  predicate HashLast(binding: seq<string>) {
    forall i :: 0 <= i < |binding| && binding[i] == "#" ==> i == |binding| - 1
  }

  /**
    The routing keys the loop gets wrong: a segment `#` stands where the binding's final `#` is, which the loop
    takes for an ordinary equal segment, and more segments follow it.
   */
  predicate Shadowed(binding: seq<string>, routing: seq<string>) {
    && |binding| > 0 && binding[|binding| - 1] == "#"
    && |routing| > |binding| && routing[|binding| - 1] == "#"
    && forall i :: 0 <= i < |binding| - 1 ==> Fits(binding[i], routing[i])
  }

  lemma MeansEverything(routing: seq<string>)
    ensures Means(["#"], routing)
  {
    assert routing[|routing|..] == [] && Means([], routing[|routing|..]);
    assert ["#"][1..] == [];
  }

  /** For every binding key that passes validation, the loop computes the key's meaning exactly on the routing keys that are not shadowed. */
  lemma {:induction false} MatchCorrectIff(binding: seq<string>, routing: seq<string>)
    requires HashLast(binding)
    ensures (LoopMatch(binding, routing) <==> Means(binding, routing)) <==> !Shadowed(binding, routing)
    decreases |binding|
  {
    if binding == ["#"] {
      MeansEverything(routing);
      if routing != [] && routing[0] == "#" {
        assert LoopMatch(binding, routing) == LoopMatch([], routing[1..]);
      }
    } else if binding != [] && routing != [] {
      assert binding[0] == "#" ==> false;
      MatchCorrectIff(binding[1..], routing[1..]);
      if Fits(binding[0], routing[0]) && |binding| > 1 {
        ShadowedTail(binding, routing);
      }
    }
  }

  lemma ShadowedTail(binding: seq<string>, routing: seq<string>)
    requires |binding| > 1 && routing != [] && Fits(binding[0], routing[0])
    ensures Shadowed(binding, routing) <==> Shadowed(binding[1..], routing[1..])
  {
    if Shadowed(binding[1..], routing[1..]) {
      forall i | 0 <= i < |binding| - 1 ensures Fits(binding[i], routing[i]) {
        if i > 0 {
          assert Fits(binding[1..][i - 1], routing[1..][i - 1]);
        }
      }
    }
  }

  /** Without a `#` segment in the routing key, the loop computes the meaning. */
  lemma MatchCorrect(bindingKey: string, routingKey: string)
    requires HashLast(Split(bindingKey)) && "#" !in Split(routingKey)
    ensures LoopMatch(Split(bindingKey), Split(routingKey)) <==> Means(Split(bindingKey), Split(routingKey))
  {
    MatchCorrectIff(Split(bindingKey), Split(routingKey));
  }

  // ---------------------------------------------------------------- validation

  predicate IsValidBindingKeyChar(r: char) {
    'a' <= r <= 'z' || 'A' <= r <= 'Z' || '0' <= r <= '9' || r == '_' || r == '-'
  }

  /** Letters, digits, the underscore and the hyphen, by their code points. */
  lemma KeyCharacters(c: char)
    ensures var n := c as int;
            IsValidBindingKeyChar(c) <==> 97 <= n <= 122 || 65 <= n <= 90 || 48 <= n <= 57 || n == 95 || n == 45
  {
  }

  predicate ValidSegment(segment: string) {
    segment != "" && (segment == "#" || segment == "*" || forall c :: c in segment ==> IsValidBindingKeyChar(c))
  }

  predicate ValidBindingKey(key: string) {
    && 0 < |key| <= 255 && HashLast(Split(key))
    && forall i :: 0 <= i < |Split(key)| ==> ValidSegment(Split(key)[i])
  }

  lemma WordIsValidKey(key: string)
    requires 0 < |key| <= 255 && forall i :: 0 <= i < |key| ==> IsValidBindingKeyChar(key[i])
    ensures ValidBindingKey(key)
  {
    SplitWhole(key);
  }

  method ValidateBindingKey(key: string) returns (ok: bool)
    ensures ok <==> ValidBindingKey(key)
  {
    if key == "" || |key| > 255 {
      return false;
    }
    var segments := Split(key);
    for i := 0 to |segments|
      invariant forall j :: 0 <= j < i ==> ValidSegment(segments[j]) && (segments[j] == "#" ==> j == |segments| - 1)
    {
      var segment := segments[i];
      if segment == "" {
        return false;
      }
      if segment == "#" {
        if i != |segments| - 1 {
          return false;
        }
      } else if segment != "*" {
        for j := 0 to |segment|
          invariant forall k :: 0 <= k < j ==> IsValidBindingKeyChar(segment[k])
        {
          if !IsValidBindingKeyChar(segment[j]) {
            return false;
          }
        }
      }
    }
    return true;
  }

  // ---------------------------------------------------------------- topic against direct

  lemma {:induction false} PlainMatch(binding: seq<string>, routing: seq<string>)
    requires "*" !in binding && "#" !in binding
    ensures LoopMatch(binding, routing) <==> binding == routing
    decreases |binding|
  {
    if binding != [] && routing != [] {
      assert binding[0] in binding;
      assert binding == [binding[0]] + binding[1..] && routing == [routing[0]] + routing[1..];
      PlainMatch(binding[1..], routing[1..]);
    }
  }

  /** A binding key without wildcards matches exactly the routing key it equals. */
  lemma PlainKeyMatchesItself(bindingKey: string, routingKey: string)
    requires "*" !in Split(bindingKey) && "#" !in Split(bindingKey)
    ensures LoopMatch(Split(bindingKey), Split(routingKey)) <==> bindingKey == routingKey
  {
    PlainMatch(Split(bindingKey), Split(routingKey));
    SplitInjective(bindingKey, routingKey);
  }
}
