/**
 * Translation of a dotted ONgDB configuration key into the name of the
 * environment variable the image's entrypoint reads
 * (OngdbContainer.formatConfigurationKey).
 */
module ConfigKey {

  const Prefix: string := "NEO4J_"

  /** Java's `replaceAll` for a pattern that is one literal character. */
  function ReplaceAll(s: string, from: char, to: string): (r: string)
    ensures from !in to ==> from !in r
    decreases |s|
  {
    if s == [] then [] else (if s[0] == from then to else [s[0]]) + ReplaceAll(s[1..], from, to)
  }

  /** The translator as written: prefix, then double `_`, then turn `.` into `_`. */
  function FormatConfigurationKey(key: string): (r: string)
    ensures |r| >= |Prefix| && r[..|Prefix|] == Prefix
    ensures r[|Prefix|..] == Escaped(key)
  {
    TwoPassIsOnePass(key);
    Prefix + ReplaceAll(ReplaceAll(key, '_', "__"), '.', "_")
  }

  // ---- a reference definition: each input character rewritten on its own ----

  function EscapeChar(c: char): string {
    if c == '_' then "__" else if c == '.' then "_" else [c]
  }

  function Escaped(s: string): string
    decreases |s|
  {
    if s == [] then [] else EscapeChar(s[0]) + Escaped(s[1..])
  }

  function Count(s: string, c: char): nat
    decreases |s|
  {
    if s == [] then 0 else (if s[0] == c then 1 else 0) + Count(s[1..], c)
  }

  /** The characters the translator passes through unchanged, in order. */
  function Significant(s: string): string
    decreases |s|
  {
    if s == [] then [] else (if s[0] == '_' || s[0] == '.' then [] else [s[0]]) + Significant(s[1..])
  }

  // ---- facts about ReplaceAll ----

  lemma {:induction false} ReplaceAllConcat(a: string, b: string, from: char, to: string)
    ensures ReplaceAll(a + b, from, to) == ReplaceAll(a, from, to) + ReplaceAll(b, from, to)
    decreases |a|
  {
    if a == [] {
      assert a + b == b;
    } else {
      assert (a + b)[1..] == a[1..] + b;
      ReplaceAllConcat(a[1..], b, from, to);
    }
  }

  lemma {:induction false} ReplaceAllAbsent(s: string, from: char, to: string)
    requires from !in s
    ensures ReplaceAll(s, from, to) == s
    decreases |s|
  {
    if s != [] {
      ReplaceAllAbsent(s[1..], from, to);
    }
  }

  /**
   * Doubling `_` and then rewriting `.` is the same as rewriting each
   * character on its own: a `.` becomes exactly one `_`.
   */
  lemma {:induction false} TwoPassIsOnePass(s: string)
    ensures ReplaceAll(ReplaceAll(s, '_', "__"), '.', "_") == Escaped(s)
    decreases |s|
  {
    if s != [] {
      var head := if s[0] == '_' then "__" else [s[0]];
      assert ReplaceAll(s, '_', "__") == head + ReplaceAll(s[1..], '_', "__");
      ReplaceAllConcat(head, ReplaceAll(s[1..], '_', "__"), '.', "_");
      if s[0] == '.' {
        assert ReplaceAll(head, '.', "_") == "_";
      } else {
        ReplaceAllAbsent(head, '.', "_");
      }
      TwoPassIsOnePass(s[1..]);
    }
  }

  // ---- properties of the translated key ----

  lemma {:induction false} EscapedLength(s: string)
    ensures |Escaped(s)| == |s| + Count(s, '_')
    decreases |s|
  {
    if s != [] {
      EscapedLength(s[1..]);
    }
  }

  /** The output is 6 characters of prefix, the key, and one more character per `_`. */
  lemma FormatLength(key: string)
    ensures |FormatConfigurationKey(key)| == 6 + |key| + Count(key, '_')
  {
    var r := FormatConfigurationKey(key);
    assert r == r[..|Prefix|] + r[|Prefix|..];
    EscapedLength(key);
  }

  lemma {:induction false} EscapedHasNoDot(s: string)
    ensures '.' !in Escaped(s)
    decreases |s|
  {
    if s != [] {
      EscapedHasNoDot(s[1..]);
    }
  }

  lemma FormatHasNoDot(key: string)
    ensures '.' !in FormatConfigurationKey(key)
  {
    var r := FormatConfigurationKey(key);
    assert r == Prefix + Escaped(key);
    EscapedHasNoDot(key);
  }

  lemma {:induction false} CountConcat(a: string, b: string, c: char)
    ensures Count(a + b, c) == Count(a, c) + Count(b, c)
    decreases |a|
  {
    if a == [] {
      assert a + b == b;
    } else {
      assert (a + b)[1..] == a[1..] + b;
      CountConcat(a[1..], b, c);
    }
  }

  lemma {:induction false} SignificantConcat(a: string, b: string)
    ensures Significant(a + b) == Significant(a) + Significant(b)
    decreases |a|
  {
    if a == [] {
      assert a + b == b;
    } else {
      assert (a + b)[1..] == a[1..] + b;
      SignificantConcat(a[1..], b);
    }
  }

  /** Every `_` of the key yields two `_` and every `.` one. */
  lemma {:induction false} EscapedUnderscores(s: string)
    ensures Count(Escaped(s), '_') == 2 * Count(s, '_') + Count(s, '.')
    decreases |s|
  {
    if s != [] {
      CountConcat(EscapeChar(s[0]), Escaped(s[1..]), '_');
      EscapedUnderscores(s[1..]);
    }
  }

  /** The whole translated key has one `_` from the prefix, two per `_` and one per `.` of the key. */
  lemma FormatUnderscores(key: string)
    ensures Count(FormatConfigurationKey(key), '_') == 1 + 2 * Count(key, '_') + Count(key, '.')
  {
    var r := FormatConfigurationKey(key);
    assert r == Prefix + Escaped(key) by {
      assert r == r[..|Prefix|] + r[|Prefix|..];
    }
    CountConcat(Prefix, Escaped(key), '_');
    assert Count(Prefix, '_') == 1;
    EscapedUnderscores(key);
  }

  /** All characters other than `_` and `.` keep their identity and order. */
  lemma {:induction false} EscapedKeepsOthers(s: string)
    ensures Significant(Escaped(s)) == Significant(s)
    decreases |s|
  {
    if s != [] {
      SignificantConcat(EscapeChar(s[0]), Escaped(s[1..]));
      EscapedKeepsOthers(s[1..]);
    }
  }

  lemma FormatKeepsOthers(key: string)
    ensures Significant(FormatConfigurationKey(key)[|Prefix|..]) == Significant(key)
  {
    EscapedKeepsOthers(key);
  }

  /** Applying the translator twice never gives back the once-translated key. */
  lemma FormatNotIdempotent(key: string)
    ensures FormatConfigurationKey(FormatConfigurationKey(key)) != FormatConfigurationKey(key)
  {
    FormatLength(key);
    FormatLength(FormatConfigurationKey(key));
  }

  /** Two different keys can share one translation: the translator is not injective. */
  lemma FormatNotInjective(k1: string, k2: string)
    requires k1 == "a._b" && k2 == "a_.b"
    ensures k1 != k2
    ensures FormatConfigurationKey(k1) == FormatConfigurationKey(k2) == "NEO4J_a___b"
  {
    assert k1[1] != k2[1];
    EscapedFour(k1);
    EscapedFour(k2);
    assert "a" + "_" + "__" + "b" == "a___b";
    assert "a" + "__" + "_" + "b" == "a___b";
    var r1 := FormatConfigurationKey(k1);
    var r2 := FormatConfigurationKey(k2);
    assert r1 == r1[..|Prefix|] + r1[|Prefix|..];
    assert r2 == r2[..|Prefix|] + r2[|Prefix|..];
  }

  lemma FormatEmpty()
    ensures FormatConfigurationKey("") == "NEO4J_"
  {
    var r := FormatConfigurationKey("");
    assert r == r[..|Prefix|] + r[|Prefix|..];
  }

  /** The example key of the source's documentation. */
  lemma FormatDocumentedExample(key: string)
    requires key == "dbms.security.procedures.unrestricted"
    ensures FormatConfigurationKey(key) == "NEO4J_dbms_security_procedures_unrestricted"
  {
    DocumentedKeySegments();
    EscapedDottedPath(key, "dbms", "security", "procedures", "unrestricted");
    JoinedThird();
    JoinedSecond();
    JoinedFirst();
    JoinedPrefix();
  }

  /** A key that already has the prefix gets it again, the old prefix's `_` doubled. */
  lemma FormatAlreadyPrefixed(rest: string)
    ensures FormatConfigurationKey(Prefix + rest) == Prefix + "NEO4J__" + Escaped(rest)
  {
    EscapedPrefix();
    EscapedConcat(Prefix, rest);
    var r := FormatConfigurationKey(Prefix + rest);
    assert r == r[..|Prefix|] + r[|Prefix|..];
  }

  lemma EscapedPrefix()
    ensures Escaped(Prefix) == "NEO4J__"
  {
  }

  lemma FormatSmallExample()
    ensures FormatConfigurationKey("a.b_c") == "NEO4J_a_b__c"
  {
    var r := FormatConfigurationKey("a.b_c");
    assert r == r[..|Prefix|] + r[|Prefix|..];
    assert "a.b_c"[1..] == ".b_c";
    assert ".b_c"[1..] == "b_c";
    assert "b_c"[1..] == "_c";
    assert "_c"[1..] == "c";
  }

  // ---- helpers for the examples ----

  lemma EscapedFour(s: string)
    requires |s| == 4
    ensures Escaped(s) == EscapeChar(s[0]) + EscapeChar(s[1]) + EscapeChar(s[2]) + EscapeChar(s[3])
  {
    EscapedConcat(s[..2], s[2..]);
    EscapedPair(s[..2]);
    EscapedPair(s[2..]);
    assert s == s[..2] + s[2..];
  }

  lemma EscapedPair(s: string)
    requires |s| == 2
    ensures Escaped(s) == EscapeChar(s[0]) + EscapeChar(s[1])
  {
    var t := s[1..];
    assert t[0] == s[1] && t[1..] == [];
    assert Escaped(t) == EscapeChar(s[1]);
  }

  lemma {:induction false} EscapedConcat(a: string, b: string)
    ensures Escaped(a + b) == Escaped(a) + Escaped(b)
    decreases |a|
  {
    if a == [] {
      assert a + b == b;
    } else {
      assert (a + b)[1..] == a[1..] + b;
      EscapedConcat(a[1..], b);
    }
  }

  lemma {:induction false} PlainEscaped(s: string)
    requires '_' !in s && '.' !in s
    ensures Escaped(s) == s
    decreases |s|
  {
    if s != [] {
      PlainEscaped(s[1..]);
    }
  }

  /** One plain segment followed by a dot and the rest of the key. */
  lemma EscapedSegment(a: string, b: string)
    requires '_' !in a && '.' !in a
    ensures Escaped(a + "." + b) == a + "_" + Escaped(b)
  {
    var db := "." + b;
    assert a + "." + b == a + db;
    EscapedConcat(a, db);
    PlainEscaped(a);
    assert db[0] == '.' && db[1..] == b;
    assert Escaped(db) == "_" + Escaped(b);
  }

  /** Four plain segments joined by dots translate to the same segments joined by `_`. */
  lemma EscapedDottedPath(key: string, k0: string, k1: string, k2: string, k3: string)
    requires '_' !in k0 && '.' !in k0 && '_' !in k1 && '.' !in k1
    requires '_' !in k2 && '.' !in k2 && '_' !in k3 && '.' !in k3
    requires key == k0 + "." + (k1 + "." + (k2 + "." + k3))
    ensures FormatConfigurationKey(key) == Prefix + (k0 + "_" + (k1 + "_" + (k2 + "_" + k3)))
  {
    var t2 := k2 + "." + k3;
    var t1 := k1 + "." + t2;
    PlainEscaped(k3);
    EscapedSegment(k2, k3);
    EscapedSegment(k1, t2);
    EscapedSegment(k0, t1);
    var r := FormatConfigurationKey(key);
    assert r == r[..|Prefix|] + r[|Prefix|..];
  }

  // The documented key, spelled out piece by piece. These literal equalities
  // carry no meaning of their own: each is a separate lemma only so that the
  // solver checks one concatenation of string literals at a time.

  lemma DocumentedKeySegments()
    ensures "dbms.security.procedures.unrestricted"
         == "dbms" + "." + ("security" + "." + ("procedures" + "." + "unrestricted"))
  {
  }

  lemma JoinedThird()
    ensures "procedures" + "_" + "unrestricted" == "procedures_unrestricted"
  {
  }

  lemma JoinedSecond()
    ensures "security" + "_" + "procedures_unrestricted" == "security_procedures_unrestricted"
  {
  }

  lemma JoinedFirst()
    ensures "dbms" + "_" + "security_procedures_unrestricted" == "dbms_security_procedures_unrestricted"
  {
  }

  lemma JoinedPrefix()
    ensures Prefix + "dbms_security_procedures_unrestricted" == "NEO4J_dbms_security_procedures_unrestricted"
  {
  }
}
