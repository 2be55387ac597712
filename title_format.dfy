/**
 * The generator's `formatJsonSchemaTitleAsType`: a JSON Schema title such as
 * `operations."SearchController.post".responses.200` is split on dots,
 * quoted segments that the split tore apart are glued back together, quotes
 * are stripped, and every part after the first becomes a bracketed key.
 *
 * The output array may get holes: a write to slot `index - 1` past its end
 * extends it. A slot is therefore an optional string, None being a hole.
 */
module TitleFormat {
  import opened Wrappers
  import opened Strings

  /** One element of the output array, or a hole. */
  type Slot = Option<string>

  /** A part that ends with a quote without starting with one continues the part before it. */
  predicate IsContinuation(part: string) {
    EndsWith(part, "\"") && part[0] != '"'
  }

  /**
   * `fixedParts[index - 1] = `${fixedParts[index - 1]}.${part}``: slot -1 is
   * a property rather than an element, a slot inside the array is
   * overwritten (a hole reading as "undefined"), and a slot past the end
   * extends the array with holes.
   */
  function GlueAt(fixed: seq<Slot>, index: nat, part: string): (r: seq<Slot>)
    ensures index == 0 ==> r == fixed
    ensures 0 < index <= |fixed| ==> |r| == |fixed| && r[index - 1] == Some(Show(fixed[index - 1]) + "." + part)
    ensures 0 < index <= |fixed| ==> forall k :: 0 <= k < |fixed| && k != index - 1 ==> r[k] == fixed[k]
    ensures index > |fixed| ==> |r| == index && r[..|fixed|] == fixed && r[index - 1] == Some("undefined." + part)
    ensures index > |fixed| ==> forall k :: |fixed| <= k < index - 1 ==> r[k].None?
  {
    if index == 0 then fixed
    else if index <= |fixed| then fixed[index - 1 := Some(Show(fixed[index - 1]) + "." + part)]
    else fixed + seq(index - 1 - |fixed|, _ => None) + [Some("undefined." + part)]
  }

  /** One `forEach` step: glue a continuation, push anything else. */
  function Step(fixed: seq<Slot>, index: nat, part: string): seq<Slot> {
    if IsContinuation(part) then GlueAt(fixed, index, part) else fixed + [Some(part)]
  }

  /** The output array after the first `n` parts. */
  function FixedParts(parts: seq<string>, n: nat): seq<Slot>
    requires n <= |parts|
  {
    if n == 0 then [] else Step(FixedParts(parts, n - 1), n - 1, parts[n - 1])
  }

  /** `replace(/^"/, '').replace(/"$/, '')`: one leading, then one trailing quote removed. */
  function StripQuotes(p: string): (r: string)
    ensures |p| - 2 <= |r| <= |p|
  {
    var a := if |p| > 0 && p[0] == '"' then p[1..] else p;
    if |a| > 0 && a[|a| - 1] == '"' then a[..|a| - 1] else a
  }

  /** The rendering of slot `index`: bare for the first, bracketed and quoted after, nothing for a hole. */
  function Piece(slot: Slot, index: nat): string {
    match slot
    case None => ""
    case Some(p) => if index == 0 then StripQuotes(p) else "['" + StripQuotes(p) + "']"
  }

  /** The `map`/`map`/`join('')` of the first `n` slots. */
  function Render(fixed: seq<Slot>, n: nat): string
    requires n <= |fixed|
  {
    if n == 0 then "" else Render(fixed, n - 1) + Piece(fixed[n - 1], n - 1)
  }

  /** The output for the parts of a title. */
  function FormatParts(parts: seq<string>): string {
    var fixed := FixedParts(parts, |parts|);
    Render(fixed, |fixed|)
  }

  /** The whole transformation, as a function of the title. */
  function FormatTitle(title: string): string {
    FormatParts(Split(title, '.'))
  }

  /** `formatJsonSchemaTitleAsType(title)`, filling the output array part by part. */
  method FormatJsonSchemaTitleAsType(title: string) returns (r: string)
    ensures r == FormatTitle(title)
  {
    var parts := Split(title, '.');
    var fixed: seq<Slot> := [];
    var index := 0;
    while index < |parts|
      invariant index <= |parts|
      invariant fixed == FixedParts(parts, index)
    {
      var part := parts[index];
      ghost var before := fixed;
      if EndsWith(part, "\"") && part[0] != '"' {
        if index == 0 {
          // slot -1 is a property of the array, not an element
        } else if index - 1 < |fixed| {
          fixed := fixed[index - 1 := Some(Show(fixed[index - 1]) + "." + part)];
        } else {
          fixed := fixed + seq(index - 1 - |fixed|, _ => None) + [Some("undefined." + part)];
        }
        assert fixed == GlueAt(before, index, part);
      } else {
        fixed := fixed + [Some(part)];
      }
      assert fixed == Step(before, index, part);
      index := index + 1;
    }
    r := Render(fixed, |fixed|);
  }

  /** Every part present as it is. */
  function Wrapped(parts: seq<string>): (r: seq<Slot>)
    ensures |r| == |parts| && forall k :: 0 <= k < |parts| ==> r[k] == Some(parts[k])
  {
    seq(|parts|, k requires 0 <= k < |parts| => Some(parts[k]))
  }

  /** Until a continuation appears, every part is pushed as it is. */
  lemma {:induction false} PartsPushedUntilContinuation(parts: seq<string>, n: nat)
    requires n <= |parts|
    requires forall k :: 0 <= k < n ==> !IsContinuation(parts[k])
    ensures FixedParts(parts, n) == Wrapped(parts[..n])
  {
    if n > 0 {
      PartsPushedUntilContinuation(parts, n - 1);
      assert parts[..n] == parts[..n - 1] + [parts[n - 1]];
    }
  }

  /** The first continuation is glued, with a dot, onto the part just before it. */
  lemma FirstContinuationGluesOntoPrevious(parts: seq<string>, i: nat)
    requires 1 <= i < |parts| && IsContinuation(parts[i])
    requires forall k :: 0 <= k < i ==> !IsContinuation(parts[k])
    ensures FixedParts(parts, i + 1) == Wrapped(parts[..i - 1]) + [Some(parts[i - 1] + "." + parts[i])]
  {
    PartsPushedUntilContinuation(parts, i);
  }

  /** A continuation in first position is written to slot -1 and so disappears. */
  lemma LeadingContinuationDropped(parts: seq<string>)
    requires |parts| >= 1 && IsContinuation(parts[0])
    ensures FixedParts(parts, 1) == []
  {
  }

  /** After a first re-join, the output is one slot shorter than the parts read so far. */
  lemma {:induction false} OneSlotShortAfterGlue(parts: seq<string>, i: nat, m: nat)
    requires 1 <= i < m <= |parts| && IsContinuation(parts[i])
    requires forall k :: 0 <= k < m && k != i ==> !IsContinuation(parts[k])
    ensures |FixedParts(parts, m)| == m - 1
  {
    if m == i + 1 {
      FirstContinuationGluesOntoPrevious(parts, i);
    } else {
      OneSlotShortAfterGlue(parts, i, m - 1);
    }
  }

  /**
   * A second continuation is not glued onto the part before it: its slot
   * `index - 1` lies just past the end, so it is appended as "undefined." + part.
   */
  lemma SecondContinuationNotGlued(parts: seq<string>, i: nat, j: nat)
    requires 1 <= i < j < |parts| && IsContinuation(parts[i]) && IsContinuation(parts[j])
    requires forall k :: 0 <= k < j && k != i ==> !IsContinuation(parts[k])
    ensures FixedParts(parts, j + 1) == FixedParts(parts, j) + [Some("undefined." + parts[j])]
  {
    OneSlotShortAfterGlue(parts, i, j);
    var fixed := FixedParts(parts, j);
    var holes: seq<Slot> := seq(j - 1 - |fixed|, _ => None);
    assert holes == [];
  }

  /** A part wrapped in quotes loses exactly those quotes. */
  lemma StripQuotesOfQuoted(s: string)
    ensures StripQuotes("\"" + s + "\"") == s
  {
    var p := "\"" + s + "\"";
    assert p[1..] == s + "\"";
    assert (s + "\"")[..|s|] == s;
  }

  /** A part without quotes at either end is left alone. */
  lemma StripQuotesOfBare(s: string)
    requires s == [] || (s[0] != '"' && s[|s| - 1] != '"')
    ensures StripQuotes(s) == s
  {
  }

  /** A part quoted only at its start loses that one quote. */
  lemma StripQuotesOfLeadingOnly(s: string)
    requires s == [] || s[|s| - 1] != '"'
    ensures StripQuotes("\"" + s) == s
  {
    assert ("\"" + s)[1..] == s;
  }

  /** A part quoted only at its end loses that one quote. */
  lemma StripQuotesOfTrailingOnly(s: string)
    requires s == [] || s[0] != '"'
    ensures StripQuotes(s + "\"") == s
  {
    assert (s + "\"")[..|s|] == s;
  }

  /** The slots of a four-part title whose middle two parts are a torn quoted key. */
  lemma TornKeySlots(a: string, b: string, c: string, d: string)
    requires a == [] || (a[0] != '"' && a[|a| - 1] != '"')
    requires d == [] || (d[0] != '"' && d[|d| - 1] != '"')
    requires |c| > 0 && c[0] != '"'
    ensures var parts := [a, "\"" + b, c + "\"", d];
      FixedParts(parts, 4) == [Some(a), Some("\"" + b + "." + (c + "\"")), Some(d)]
  {
    var parts := [a, "\"" + b, c + "\"", d];
    assert IsContinuation(parts[2]);
    assert !IsContinuation(parts[0]) && !IsContinuation(parts[1]);
    FirstContinuationGluesOntoPrevious(parts, 2);
    assert parts[..1] == [a];
  }

  /** Three present slots render as their pieces in order. */
  lemma RenderThree(x: string, y: string, z: string)
    ensures Render([Some(x), Some(y), Some(z)], 3) == StripQuotes(x) + "['" + StripQuotes(y) + "']" + "['" + StripQuotes(z) + "']"
  {
    var fixed := [Some(x), Some(y), Some(z)];
    var px, py, pz := StripQuotes(x), StripQuotes(y), StripQuotes(z);
    assert Piece(fixed[0], 0) == px;
    assert Piece(fixed[1], 1) == "['" + py + "']";
    assert Piece(fixed[2], 2) == "['" + pz + "']";
    assert Render(fixed, 1) == px;
    assert Render(fixed, 2) == px + ("['" + py + "']");
    assert Render(fixed, 3) == px + ("['" + py + "']") + ("['" + pz + "']");
  }

  /**
   * A quoted key torn apart by the split is kept whole and bracketed without
   * its quotes; the generator's own example
   * `operations."SearchController.post".responses` has this shape and gives
   * `operations['SearchController.post']['responses']`.
   */
  lemma QuotedKeyKeptWhole(a: string, b: string, c: string, d: string)
    requires a == [] || (a[0] != '"' && a[|a| - 1] != '"')
    requires d == [] || (d[0] != '"' && d[|d| - 1] != '"')
    requires |c| > 0 && c[0] != '"'
    ensures FormatParts([a, "\"" + b, c + "\"", d]) == a + "['" + (b + "." + c) + "']" + "['" + d + "']"
  {
    var parts := [a, "\"" + b, c + "\"", d];
    var glued := "\"" + b + "." + (c + "\"");
    var key := b + "." + c;
    var fixed := FixedParts(parts, 4);
    assert fixed == [Some(a), Some(glued), Some(d)] by {
      TornKeySlots(a, b, c, d);
    }
    assert Render(fixed, 3) == a + "['" + key + "']" + "['" + d + "']" by {
      assert glued == "\"" + key + "\"";
      StripQuotesOfQuoted(key);
      StripQuotesOfBare(a);
      StripQuotesOfBare(d);
      RenderThree(a, glued, d);
    }
  }
}
