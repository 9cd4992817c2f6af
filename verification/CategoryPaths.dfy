/** Materialised paths as strings: `/` for a root, else every ancestor's id between slashes, root first. */
module CategoryPaths {

  /** Ids never hold the separator. */
  predicate IsId(id: string) { id != "" && '/' !in id }

  predicate AreIds(chain: seq<string>) { forall i | 0 <= i < |chain| :: IsId(chain[i]) }

  function Segment(id: string): string { id + "/" }

  function Render(chain: seq<string>): string {
    if chain == [] then "/" else Render(chain[..|chain| - 1]) + Segment(chain[|chain| - 1])
  }

  lemma {:induction false} RenderEnds(chain: seq<string>)
    ensures |chain| < |Render(chain)|
    ensures Render(chain)[0] == '/' == Render(chain)[|Render(chain)| - 1]
  {
    if chain != [] {
      RenderEnds(chain[..|chain| - 1]);
    }
  }

  lemma {:induction false} SlashSplitsOnce(a: string, x: string, b: string, y: string)
    requires '/' !in a && '/' !in b && a + "/" + x == b + "/" + y
    ensures a == b && x == y
  {
    var s := a + "/" + x;
    assert s == b + "/" + y;
    assert s[|a|] == '/' && s[|b|] == '/';
    NoSlashBefore(a, x);
    NoSlashBefore(b, y);
    assert |a| == |b|;
    assert a == s[..|a|] && b == s[..|b|];
    assert x == s[|a| + 1..] && y == s[|b| + 1..];
  }

  lemma {:induction false} NoSlashBefore(a: string, x: string)
    requires '/' !in a
    ensures forall i | 0 <= i < |a| :: (a + "/" + x)[i] != '/'
  {
    forall i | 0 <= i < |a| ensures (a + "/" + x)[i] != '/' {
      assert (a + "/" + x)[i] == a[i];
    }
  }

  /** The path below its first slash, front first. */
  function Below(chain: seq<string>): string {
    if chain == [] then "" else Segment(chain[0]) + Below(chain[1..])
  }

  lemma {:induction false} BelowSnoc(chain: seq<string>, id: string)
    ensures Below(chain + [id]) == Below(chain) + Segment(id)
  {
    if chain == [] {
      assert chain + [id] == [id] && [id][1..] == [];
    } else {
      assert (chain + [id])[1..] == chain[1..] + [id];
      BelowSnoc(chain[1..], id);
    }
  }

  /** A longer chain's path is the shorter one's, continued. */
  lemma {:induction false} RenderConcat(a: seq<string>, b: seq<string>)
    ensures Render(a + b) == Render(a) + Below(b)
    ensures Render(a) <= Render(a + b)
  {
    if b == [] {
      assert a + b == a;
    } else {
      var init, last := b[..|b| - 1], b[|b| - 1];
      assert b == init + [last] && (a + b)[..|a + b| - 1] == a + init;
      RenderConcat(a, init);
      BelowSnoc(init, last);
      assert Render(a) + Below(init) + Segment(last) == Render(a) + (Below(init) + Segment(last));
    }
  }

  lemma {:induction false} RenderIsBelow(chain: seq<string>)
    ensures Render(chain) == "/" + Below(chain)
  {
    if chain != [] {
      var n := |chain| - 1;
      RenderIsBelow(chain[..n]);
      BelowSnoc(chain[..n], chain[n]);
      assert chain == chain[..n] + [chain[n]];
    }
  }

  lemma {:induction false} BelowPrefix(a: seq<string>, b: seq<string>, rest: string)
    requires AreIds(a) && AreIds(b) && Below(b) == Below(a) + rest
    ensures a <= b
  {
    if a != [] {
      assert |Below(b)| >= |Below(a)| > 0;
      assert b != [];
      assert Below(b) == b[0] + "/" + Below(b[1..]);
      assert Below(a) + rest == a[0] + "/" + (Below(a[1..]) + rest);
      SlashSplitsOnce(b[0], Below(b[1..]), a[0], Below(a[1..]) + rest);
      BelowPrefix(a[1..], b[1..], rest);
      assert a == [a[0]] + a[1..] && b == [b[0]] + b[1..];
    }
  }

  /** One path starts with another exactly when its chain does: no id is ever cut in two. */
  lemma {:induction false} PrefixIsAncestry(a: seq<string>, b: seq<string>)
    requires AreIds(a) && AreIds(b)
    ensures Render(a) <= Render(b) <==> a <= b
  {
    if a <= b {
      assert b == a + b[|a|..];
      RenderConcat(a, b[|a|..]);
    }
    if Render(a) <= Render(b) {
      RenderIsBelow(a);
      RenderIsBelow(b);
      var rest := Render(b)[|Render(a)|..];
      assert Render(b) == Render(a) + rest;
      assert ("/" + Below(b))[1..] == Below(b);
      assert ("/" + (Below(a) + rest))[1..] == Below(a) + rest;
      assert "/" + Below(a) + rest == "/" + (Below(a) + rest);
      BelowPrefix(a, b, rest);
    }
  }

  predicate Contains(s: string, part: string) {
    exists k | 0 <= k <= |s| :: part <= s[k..]
  }

  lemma {:induction false} InChain(chain: seq<string>, i: nat)
    requires i < |chain|
    ensures Contains(Render(chain), "/" + chain[i] + "/")
  {
    var before, upTo := Render(chain[..i]), Render(chain[..i + 1]);
    assert chain[..i + 1][..i] == chain[..i];
    assert chain == chain[..i + 1] + chain[i + 1..];
    RenderConcat(chain[..i + 1], chain[i + 1..]);
    RenderEnds(chain[..i]);
    var k := |before| - 1;
    assert upTo == before + Segment(chain[i]);
    assert upTo[k..] == "/" + chain[i] + "/";
    assert Render(chain)[..|upTo|] == upTo;
    assert Render(chain)[k..|upTo|] == upTo[k..];
    assert "/" + chain[i] + "/" <= Render(chain)[k..];
  }

  lemma {:induction false} FirstSegment(id: string, head: string, rest: string)
    requires '/' !in id && '/' !in head
    requires "/" + id + "/" <= "/" + (head + "/" + rest)
    ensures id == head
  {
    var s := "/" + (head + "/" + rest);
    var tail := s[|"/" + id + "/"|..];
    assert s == "/" + id + "/" + tail;
    assert s[1..] == id + "/" + tail && s[1..] == head + "/" + rest;
    SlashSplitsOnce(id, tail, head, rest);
  }

  /** The next slash after the first is past the head. */
  lemma {:induction false} LaterSegment(head: string, rest: string, k: nat)
    requires '/' !in head && 0 < k < |"/" + (head + "/" + rest)| && ("/" + (head + "/" + rest))[k] == '/'
    ensures 1 + |head| <= k
    ensures ("/" + (head + "/" + rest))[k..] == ("/" + rest)[k - 1 - |head|..]
  {
    NoSlashBefore(head, rest);
    assert (head + "/" + rest)[k - 1] == '/';
    assert "/" + (head + "/" + rest) == ("/" + head) + ("/" + rest);
  }

  lemma {:induction false} SegmentIsInBelow(chain: seq<string>, id: string, k: nat)
    requires AreIds(chain) && IsId(id) && k <= |Below(chain)|
    requires "/" + id + "/" <= ("/" + Below(chain))[k..]
    ensures id in chain
  {
    var part := "/" + id + "/";
    var s := "/" + Below(chain);
    assert |s[k..]| >= |part| >= 3;
    assert chain != [];
    var head, rest := chain[0], Below(chain[1..]);
    assert s == "/" + (head + "/" + rest);
    assert s[k] == s[k..][0] == part[0] == '/';
    if k == 0 {
      assert s[k..] == s;
      FirstSegment(id, head, rest);
    } else {
      LaterSegment(head, rest, k);
      SegmentIsInBelow(chain[1..], id, k - 1 - |head|);
    }
  }

  /** A path holds `/id/` exactly when the id is one of its ancestors. */
  lemma {:induction false} ContainsIsMembership(chain: seq<string>, id: string)
    requires AreIds(chain) && IsId(id)
    ensures Contains(Render(chain), "/" + id + "/") <==> id in chain
  {
    if id in chain {
      var i :| 0 <= i < |chain| && chain[i] == id;
      InChain(chain, i);
    }
    if Contains(Render(chain), "/" + id + "/") {
      var k :| 0 <= k <= |Render(chain)| && "/" + id + "/" <= Render(chain)[k..];
      RenderIsBelow(chain);
      SegmentIsInBelow(chain, id, k);
    }
  }

  // ---------------------------------------------------------------------------
  // SQL LIKE
  // ---------------------------------------------------------------------------

  /** `%` stands for any characters, `_` for one, and a backslash makes the next character plain. */
  predicate Like(s: string, pattern: string)
    decreases |pattern|
  {
    if pattern == "" then s == ""
    else if pattern[0] == '%' then exists k | 0 <= k <= |s| :: Like(s[k..], pattern[1..])
    else if pattern[0] == '\\' && |pattern| > 1 then s != "" && s[0] == pattern[1] && Like(s[1..], pattern[2..])
    else if pattern[0] == '_' then s != "" && Like(s[1..], pattern[1..])
    else s != "" && s[0] == pattern[0] && Like(s[1..], pattern[1..])
  }

  function Escaped(s: string): string {
    if s == "" then "" else
    (if s[0] in {'\\', '%', '_'} then ['\\', s[0]] else [s[0]]) + Escaped(s[1..])
  }

  /** The escaped pattern matches exactly the strings that start with the prefix, wildcards in it or not. */
  lemma {:induction false} EscapedPatternIsPrefix(prefix: string, s: string)
    ensures Like(s, Escaped(prefix) + "%") <==> prefix <= s
  {
    var pattern := Escaped(prefix) + "%";
    if prefix == "" {
      assert pattern == "%" && pattern[1..] == "";
      assert s[|s|..] == "" && Like(s[|s|..], "");
    } else {
      var c, rest := prefix[0], Escaped(prefix[1..]) + "%";
      if c in {'\\', '%', '_'} {
        assert pattern == ['\\', c] + rest;
        assert pattern[0] == '\\' && pattern[1] == c && pattern[2..] == rest;
      } else {
        assert pattern == [c] + rest;
        assert pattern[0] == c && pattern[1..] == rest;
      }
      assert prefix == [c] + prefix[1..];
      if s != "" {
        EscapedPatternIsPrefix(prefix[1..], s[1..]);
        assert s == [s[0]] + s[1..];
        assert prefix <= s <==> c == s[0] && prefix[1..] <= s[1..];
      }
    }
  }
}
