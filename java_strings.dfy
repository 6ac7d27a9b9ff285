/**
 * The two string operations the bucket serialiser relies on: joining a list
 * with a separator (Utils.implode, whose source is not part of this model, is
 * taken to be the usual join) and Java's String.split(",") with its default
 * limit of zero.
 */
module JavaStrings {

  /** Joins the items with the glue between consecutive items; no items give "". */
  function Implode(items: seq<string>, glue: string): string
  {
    if |items| == 0 then ""
    else if |items| == 1 then items[0]
    else items[0] + glue + Implode(items[1..], glue)
  }

  /** Splits at every comma: n commas always give n + 1 parts, empty ones included. */
  function SplitAll(s: string): (parts: seq<string>)
    ensures |parts| >= 1
  {
    if |s| == 0 then [""]
    else
      var rest := SplitAll(s[1..]);
      if s[0] == ',' then [""] + rest
      else [[s[0]] + rest[0]] + rest[1..]
  }

  /** Removes the empty strings at the end of a list of parts. */
  function DropTrailingEmpty(parts: seq<string>): (r: seq<string>)
    ensures |r| <= |parts| && r == parts[..|r|]
    ensures r == [] || r[|r| - 1] != ""
  {
    if |parts| > 0 && parts[|parts| - 1] == "" then DropTrailingEmpty(parts[..|parts| - 1])
    else parts
  }

  /**
   * Java's s.split(","): a string without a comma comes back whole (so ""
   * gives [""]); otherwise the parts between commas, minus trailing empty ones.
   */
  function SplitOnComma(s: string): (r: seq<string>)
    ensures forall i :: 0 <= i < |r| ==> ',' !in r[i]
  {
    if ',' !in s then [s]
    else
      SplitAllCommaFree(s);
      DropTrailingEmpty(SplitAll(s))
  }

  /** Whether sub occurs in s (Java's String.contains). */
  function Contains(s: string, sub: string): bool
    decreases |s|
  {
    (|sub| <= |s| && s[..|sub|] == sub) || (|s| > 0 && Contains(s[1..], sub))
  }

  /** sub occurs in s starting at position i. */
  predicate OccursAt(s: string, sub: string, i: int)
  {
    0 <= i <= |s| - |sub| && s[i..i + |sub|] == sub
  }

  /** Contains finds sub exactly when sub occurs at some position of s. */
  lemma {:induction false} ContainsOccurs(s: string, sub: string)
    ensures Contains(s, sub) <==> exists i :: OccursAt(s, sub, i)
    decreases |s|
  {
    if |sub| <= |s| && s[..|sub|] == sub {
      assert OccursAt(s, sub, 0);
    } else if Contains(s, sub) {
      ContainsOccurs(s[1..], sub);
      var i :| OccursAt(s[1..], sub, i);
      assert s[i + 1..i + 1 + |sub|] == s[1..][i..i + |sub|];
      assert OccursAt(s, sub, i + 1);
    }
    if exists i :: OccursAt(s, sub, i) {
      var i :| OccursAt(s, sub, i);
      if i == 0 {
        assert s[..|sub|] == s[0..|sub|];
      } else {
        assert s[1..][i - 1..i - 1 + |sub|] == s[i..i + |sub|];
        assert OccursAt(s[1..], sub, i - 1);
        ContainsOccurs(s[1..], sub);
      }
    }
  }

  /** The lists that survive Implode(_, ",") followed by SplitOnComma unchanged. */
  predicate Representable(items: seq<string>)
  {
    && |items| >= 1
    && (forall i :: 0 <= i < |items| ==> ',' !in items[i])
    && (|items| == 1 || items[|items| - 1] != "")
  }

  lemma {:induction false} SplitAllCommaFree(s: string)
    ensures forall i :: 0 <= i < |SplitAll(s)| ==> ',' !in SplitAll(s)[i]
  {
    if |s| > 0 {
      SplitAllCommaFree(s[1..]);
    }
  }

  /** Joining the parts of SplitAll with commas gives back the string. */
  lemma {:induction false} ImplodeSplitAll(s: string)
    ensures Implode(SplitAll(s), ",") == s
  {
    if |s| > 0 {
      var rest := SplitAll(s[1..]);
      ImplodeSplitAll(s[1..]);
      if s[0] == ',' {
        assert SplitAll(s) == [""] + rest;
        assert ([""] + rest)[1..] == rest;
      } else if |rest| == 1 {
        assert SplitAll(s) == [[s[0]] + rest[0]];
        assert s == [s[0]] + s[1..];
      } else {
        var parts := SplitAll(s);
        assert parts == [[s[0]] + rest[0]] + rest[1..];
        assert parts[1..] == rest[1..];
        calc {
          Implode(parts, ",");
          ([s[0]] + rest[0]) + "," + Implode(rest[1..], ",");
          [s[0]] + (rest[0] + "," + Implode(rest[1..], ","));
          [s[0]] + Implode(rest, ",");
          [s[0]] + s[1..];
          s;
        }
      }
    }
  }

  lemma {:induction false} SplitAllNoComma(x: string)
    requires ',' !in x
    ensures SplitAll(x) == [x]
  {
    if |x| > 0 {
      SplitAllNoComma(x[1..]);
      assert x == [x[0]] + x[1..];
    }
  }

  lemma {:induction false} SplitAllAfterComma(x: string, y: string)
    requires ',' !in x
    ensures SplitAll(x + "," + y) == [x] + SplitAll(y)
  {
    var s := x + "," + y;
    if |x| == 0 {
      assert s == "," + y && s[1..] == y;
    } else {
      assert s[1..] == x[1..] + "," + y;
      SplitAllAfterComma(x[1..], y);
      assert x == [x[0]] + x[1..];
    }
  }

  /** Splitting at every comma undoes a join of comma-free items. */
  lemma {:induction false} SplitAllImplode(items: seq<string>)
    requires |items| >= 1
    requires forall i :: 0 <= i < |items| ==> ',' !in items[i]
    ensures SplitAll(Implode(items, ",")) == items
  {
    if |items| == 1 {
      SplitAllNoComma(items[0]);
    } else {
      SplitAllImplode(items[1..]);
      SplitAllAfterComma(items[0], Implode(items[1..], ","));
      assert items == [items[0]] + items[1..];
    }
  }

  lemma ImplodeHasComma(items: seq<string>)
    requires |items| >= 2
    ensures ',' in Implode(items, ",")
  {
    var s := Implode(items, ",");
    assert s == items[0] + "," + Implode(items[1..], ",");
    assert s[|items[0]|] == ',';
  }

  /**
   * A list survives a save as Implode(_, ",") and a restore with
   * split(",") exactly when it is Representable: not empty, comma-free, and
   * not ending with an empty item unless it is the only one.
   */
  lemma SplitImplodeRoundTrip(items: seq<string>)
    ensures SplitOnComma(Implode(items, ",")) == items <==> Representable(items)
  {
    var s := Implode(items, ",");
    if Representable(items) {
      if |items| == 1 {
        assert s == items[0];
      } else {
        ImplodeHasComma(items);
        SplitAllImplode(items);
      }
    }
    if SplitOnComma(s) == items {
      assert forall i :: 0 <= i < |items| ==> ',' !in items[i];
      if |items| >= 2 {
        ImplodeHasComma(items);
        SplitAllImplode(items);
      }
    }
  }
}
