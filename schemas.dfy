/**
 * The request-schema helpers (src/allocation/domain/schemas.py): the alias
 * generator `to_camel`, which turns snake_case or kebab-case field names into
 * camelCase, and the validator that rejects non-positive quantities.
 *
 * Text is a sequence of characters; only the ASCII letters are cased.
 */
module Schemas {
  import opened Wrappers
  import opened Models

  /** The errors the helpers raise: indexing an empty string, and a failed validation. */
  datatype SchemaError = IndexError | ValueError(message: string)

  predicate IsSeparator(c: char) { c == '_' || c == '-' }

  /** The characters `to_camel` never keeps: separators and spaces. */
  predicate IsBlank(c: char) { IsSeparator(c) || c == ' ' }

  predicate IsUpper(c: char) { 'A' <= c <= 'Z' }

  predicate IsLower(c: char) { 'a' <= c <= 'z' }

  predicate IsCased(c: char) { IsUpper(c) || IsLower(c) }

  function Upper(c: char): (r: char)
    ensures IsCased(r) == IsCased(c) && !IsLower(r)
    ensures !IsCased(c) ==> r == c
  {
    if IsLower(c) then (c as int - 32) as char else c
  }

  function Lower(c: char): (r: char)
    ensures IsCased(r) == IsCased(c) && !IsUpper(r)
    ensures !IsCased(c) ==> r == c
  {
    if IsUpper(c) then (c as int + 32) as char else c
  }

  /** Lowering a letter forgets only its case: `Lower` of its upper case is itself. */
  lemma LowerOfUpper(c: char)
    ensures Lower(Upper(c)) == Lower(c)
  {
  }

  /** The text after the leading run of separators. */
  function DropSeparators(s: string): (r: string)
    ensures |r| <= |s| && r == s[|s| - |r|..]
    ensures r == [] || !IsSeparator(r[0])
    ensures forall i :: 0 <= i < |s| - |r| ==> IsSeparator(s[i])
  {
    if s != [] && IsSeparator(s[0]) then DropSeparators(s[1..]) else s
  }

  /** `re.sub(r"(_|-)+", " ", s)`: every maximal run of `_` and `-` becomes one space. */
  function CollapseSeparators(s: string): (r: string)
    ensures forall i :: 0 <= i < |r| ==> !IsSeparator(r[i])
    ensures |r| <= |s|
    decreases |s|
  {
    if s == [] then []
    else if IsSeparator(s[0]) then " " + CollapseSeparators(DropSeparators(s[1..]))
    else [s[0]] + CollapseSeparators(s[1..])
  }

  /**
   * `str.title`: a letter that follows a letter is lowered, any other letter
   * raised; other characters stay. `afterCased` says whether the text before
   * `s` ended in a letter.
   */
  function Title(s: string, afterCased: bool): (r: string)
    ensures |r| == |s|
  {
    if s == [] then []
    else [if afterCased then Lower(s[0]) else Upper(s[0])] + Title(s[1..], IsCased(s[0]))
  }

  /** `str.title` changes letter case only: every character keeps its lower case and whether it is a letter. */
  lemma {:induction false} TitleChangesCaseOnly(s: string, afterCased: bool)
    ensures forall i :: 0 <= i < |s| ==>
      Lower(Title(s, afterCased)[i]) == Lower(s[i]) && IsCased(Title(s, afterCased)[i]) == IsCased(s[i])
    ensures forall i :: 0 <= i < |s| && !IsCased(s[i]) ==> Title(s, afterCased)[i] == s[i]
    decreases |s|
  {
    if s != [] {
      TitleChangesCaseOnly(s[1..], IsCased(s[0]));
      LowerOfUpper(s[0]);
      var r := Title(s, afterCased);
      assert forall i :: 1 <= i < |s| ==> r[i] == Title(s[1..], IsCased(s[0]))[i - 1] && s[i] == s[1..][i - 1];
    }
  }

  /** `str.replace(" ", "")`. */
  function RemoveSpaces(s: string): (r: string)
    ensures forall i :: 0 <= i < |r| ==> r[i] != ' '
    ensures |r| <= |s|
  {
    if s == [] then []
    else if s[0] == ' ' then RemoveSpaces(s[1..])
    else [s[0]] + RemoveSpaces(s[1..])
  }

  /** `"".join([s[0].lower(), s[1:]])`: indexing the first character fails on empty text. */
  function LowerFirst(s: string): (r: Result<string, SchemaError>)
    ensures r.Failure? <==> s == []
    ensures r.Failure? ==> r.error == IndexError
    ensures r.Success? ==> |r.value| == |s| && r.value[0] == Lower(s[0]) && r.value[1..] == s[1..]
  {
    if |s| == 0 then Failure(IndexError) else Success([Lower(s[0])] + s[1..])
  }

  /** `to_camel`: collapse the separator runs, title-case, drop the spaces, lower the first character. */
  function ToCamel(s: string): (r: Result<string, SchemaError>)
    ensures r.Failure? ==> r.error == IndexError
    ensures r.Success? ==> 0 < |r.value| <= |s|
  {
    LowerFirst(RemoveSpaces(Title(CollapseSeparators(s), false)))
  }

  // ---------------------------------------------------------------------------
  // An independent, position-by-position reading of `to_camel`.
  // ---------------------------------------------------------------------------

  /** The text without its separators and spaces. */
  function StripBlanks(s: string): (r: string)
    ensures forall i :: 0 <= i < |r| ==> !IsBlank(r[i])
    ensures |r| <= |s|
  {
    if s == [] then []
    else if IsBlank(s[0]) then StripBlanks(s[1..])
    else [s[0]] + StripBlanks(s[1..])
  }

  /** The title-case rule at one position: a letter after a letter is lowered, any other letter raised. */
  function CaseAt(s: string, i: nat): (c: char)
    requires i < |s|
    ensures IsCased(s[i]) && (i == 0 || !IsCased(s[i - 1])) ==> IsUpper(c)
    ensures IsCased(s[i]) && i > 0 && IsCased(s[i - 1]) ==> IsLower(c)
    ensures !IsCased(s[i]) ==> c == s[i]
    ensures Lower(c) == Lower(s[i])
  {
    LowerOfUpper(s[i]);
    if i > 0 && IsCased(s[i - 1]) then Lower(s[i]) else Upper(s[i])
  }

  function TitleCased(s: string): (r: string)
    ensures |r| == |s| && forall i :: 0 <= i < |s| ==> r[i] == CaseAt(s, i)
  {
    seq(|s|, i requires 0 <= i < |s| => CaseAt(s, i))
  }

  /** The camel-case name of `s`, read position by position. */
  function CamelSpec(s: string): Result<string, SchemaError>
  {
    LowerFirst(StripBlanks(TitleCased(s)))
  }

  // ---------------------------------------------------------------------------
  // Lemmas
  // ---------------------------------------------------------------------------

  /** Past the first position, `Title` follows the positional rule whatever came before. */
  lemma {:induction false} TitleAt(s: string, afterCased: bool, i: nat)
    requires 0 < i < |s|
    ensures Title(s, afterCased)[i] == CaseAt(s, i)
    decreases |s|
  {
    var rest := Title(s[1..], IsCased(s[0]));
    assert Title(s, afterCased)[i] == rest[i - 1];
    if i > 1 {
      TitleAt(s[1..], IsCased(s[0]), i - 1);
      assert CaseAt(s[1..], i - 1) == CaseAt(s, i);
    }
  }

  /** `str.title` at the start of a string is the positional title-case rule. */
  lemma TitleIsPositional(s: string)
    ensures Title(s, false) == TitleCased(s)
  {
    forall i | 0 <= i < |s| ensures Title(s, false)[i] == TitleCased(s)[i] {
      if i > 0 {
        TitleAt(s, false, i);
      }
    }
  }

  lemma {:induction false} StripBlanksAppend(a: string, b: string)
    ensures StripBlanks(a + b) == StripBlanks(a) + StripBlanks(b)
    decreases |a|
  {
    if a == [] {
      assert a + b == b;
    } else {
      assert (a + b)[0] == a[0] && (a + b)[1..] == a[1..] + b;
      StripBlanksAppend(a[1..], b);
    }
  }

  /** Where the text has no separators, dropping the spaces drops every blank. */
  lemma {:induction false} RemoveSpacesIsStripBlanks(s: string)
    requires forall i :: 0 <= i < |s| ==> !IsSeparator(s[i])
    ensures RemoveSpaces(s) == StripBlanks(s)
    decreases |s|
  {
    if s != [] {
      RemoveSpacesIsStripBlanks(s[1..]);
    }
  }

  /** A leading separator run leaves nothing after stripping, and ends any word. */
  lemma {:induction false} TitleOverSeparators(s: string, afterCased: bool)
    ensures StripBlanks(Title(s, afterCased)) == StripBlanks(Title(DropSeparators(s), afterCased && DropSeparators(s) == s))
    decreases |s|
  {
    if s != [] && IsSeparator(s[0]) {
      TitleOverSeparators(s[1..], false);
    }
  }

  /** Collapsing the separator runs to spaces changes nothing once blanks are stripped. */
  lemma {:induction false} CollapseIsInvisible(s: string, afterCased: bool)
    ensures StripBlanks(Title(CollapseSeparators(s), afterCased)) == StripBlanks(Title(s, afterCased))
    decreases |s|
  {
    if s == [] {
    } else if IsSeparator(s[0]) {
      var rest := DropSeparators(s[1..]);
      assert (" " + CollapseSeparators(rest))[1..] == CollapseSeparators(rest);
      CollapseIsInvisible(rest, false);
      TitleOverSeparators(s[1..], false);
    } else {
      assert ([s[0]] + CollapseSeparators(s[1..]))[1..] == CollapseSeparators(s[1..]);
      CollapseIsInvisible(s[1..], IsCased(s[0]));
    }
  }

  /** `to_camel` is the title-case rule applied position by position, then stripped, then the first character lowered. */
  lemma ToCamelIsTitleRule(s: string)
    ensures ToCamel(s) == CamelSpec(s)
  {
    var t := Title(CollapseSeparators(s), false);
    TitleChangesCaseOnly(CollapseSeparators(s), false);
    RemoveSpacesIsStripBlanks(t);
    CollapseIsInvisible(s, false);
    TitleIsPositional(s);
  }

  /** The result has no `_`, `-` or space in it. */
  lemma ToCamelHasNoBlanks(s: string)
    ensures ToCamel(s).Success? ==> forall i :: 0 <= i < |ToCamel(s).value| ==> !IsBlank(ToCamel(s).value[i])
  {
    ToCamelIsTitleRule(s);
  }

  /** Stripping text that differs only in letter case gives texts that differ only in letter case. */
  lemma {:induction false} StripBlanksKeepsCaseless(a: string, b: string)
    requires |a| == |b| && forall i :: 0 <= i < |a| ==> Lower(a[i]) == Lower(b[i])
    ensures |StripBlanks(a)| == |StripBlanks(b)|
    ensures forall i :: 0 <= i < |StripBlanks(a)| ==> Lower(StripBlanks(a)[i]) == Lower(StripBlanks(b)[i])
    decreases |a|
  {
    if a != [] {
      assert IsBlank(a[0]) == IsBlank(b[0]) by {
        assert Lower(a[0]) == Lower(b[0]);
      }
      StripBlanksKeepsCaseless(a[1..], b[1..]);
    }
  }

  /** `to_camel` fails exactly when the name holds nothing but separators and spaces. */
  lemma ToCamelFailsIffAllBlank(s: string)
    ensures ToCamel(s).Failure? <==> forall i :: 0 <= i < |s| ==> IsBlank(s[i])
    ensures ToCamel(s).Failure? ==> ToCamel(s).error == IndexError
  {
    ToCamelIsTitleRule(s);
    StripBlanksKeepsCaseless(TitleCased(s), s);
    NoneKeptIffAllBlank(s);
  }

  lemma {:induction false} NoneKeptIffAllBlank(s: string)
    ensures StripBlanks(s) == [] <==> forall i :: 0 <= i < |s| ==> IsBlank(s[i])
    decreases |s|
  {
    if s != [] {
      NoneKeptIffAllBlank(s[1..]);
      assert forall i :: 1 <= i < |s| ==> s[i] == s[1..][i - 1];
    }
  }

  /**
   * The result has one character per non-blank character of the name, in the
   * same order, each differing from it at most in letter case.
   */
  lemma ToCamelKeepsCharacters(s: string)
    ensures ToCamel(s).Success? ==>
      && |ToCamel(s).value| == |StripBlanks(s)|
      && forall i :: 0 <= i < |StripBlanks(s)| ==> Lower(ToCamel(s).value[i]) == Lower(StripBlanks(s)[i])
  {
    ToCamelIsTitleRule(s);
    StripBlanksKeepsCaseless(TitleCased(s), s);
    var t := StripBlanks(TitleCased(s));
    if t != [] {
      assert Lower(Lower(t[0])) == Lower(t[0]);
    }
  }

  /** Whether `s`, read after text that ended (or not) in a letter, ends in a letter. */
  function EndsCased(s: string, afterCased: bool): bool
  {
    if s == [] then afterCased else IsCased(s[|s| - 1])
  }

  lemma {:induction false} TitleAppend(a: string, b: string, afterCased: bool)
    ensures Title(a + b, afterCased) == Title(a, afterCased) + Title(b, EndsCased(a, afterCased))
    decreases |a|
  {
    if a == [] {
      assert a + b == b;
    } else {
      var c := if afterCased then Lower(a[0]) else Upper(a[0]);
      var next := IsCased(a[0]);
      assert EndsCased(a[1..], next) == EndsCased(a, afterCased) by {
        if |a| > 1 {
          assert a[1..][|a| - 2] == a[|a| - 1];
        }
      }
      calc {
        Title(a + b, afterCased);
        { assert (a + b)[0] == a[0] && (a + b)[1..] == a[1..] + b; }
        [c] + Title(a[1..] + b, next);
        { TitleAppend(a[1..], b, next); }
        [c] + (Title(a[1..], next) + Title(b, EndsCased(a, afterCased)));
        ([c] + Title(a[1..], next)) + Title(b, EndsCased(a, afterCased));
        Title(a, afterCased) + Title(b, EndsCased(a, afterCased));
      }
    }
  }

  lemma {:induction false} BlanksStripToNothing(w: string, afterCased: bool)
    requires forall i :: 0 <= i < |w| ==> IsBlank(w[i])
    ensures StripBlanks(Title(w, afterCased)) == []
    decreases |w|
  {
    if w != [] {
      BlanksStripToNothing(w[1..], IsCased(w[0]));
    }
  }

  /** A blank run between two texts ends the first text's last word, so the second is titled as if it came first. */
  lemma TitleAcrossBlankRun(u: string, w: string, v: string)
    requires |w| > 0 && forall i :: 0 <= i < |w| ==> IsBlank(w[i])
    ensures Title(u + w + v, false) == Title(u, false) + Title(w, EndsCased(u, false)) + Title(v, false)
  {
    assert EndsCased(u + w, false) == false by {
      assert (u + w)[|u + w| - 1] == w[|w| - 1];
    }
    TitleAppend(u + w, v, false);
    TitleAppend(u, w, false);
  }

  /** With a non-empty blank run `w` between them, `u` and `v` are stripped and titled independently. */
  lemma BlankRunSplits(u: string, w: string, v: string)
    requires |w| > 0 && forall i :: 0 <= i < |w| ==> IsBlank(w[i])
    ensures StripBlanks(Title(u + w + v, false)) == StripBlanks(Title(u, false)) + StripBlanks(Title(v, false))
  {
    var tu, tw, tv := Title(u, false), Title(w, EndsCased(u, false)), Title(v, false);
    TitleAcrossBlankRun(u, w, v);
    StripBlanksAppend(tu + tw, tv);
    StripBlanksAppend(tu, tw);
    BlanksStripToNothing(w, EndsCased(u, false));
    assert StripBlanks(tu) + [] == StripBlanks(tu);
  }

  /** A run of one or more `_` and `-` acts as a single word boundary, the same as one `_`. */
  lemma SeparatorRunIsOneBoundary(u: string, w: string, v: string)
    requires |w| > 0 && forall i :: 0 <= i < |w| ==> IsSeparator(w[i])
    ensures ToCamel(u + w + v) == ToCamel(u + "_" + v)
  {
    ToCamelIsTitleRule(u + w + v);
    ToCamelIsTitleRule(u + "_" + v);
    TitleIsPositional(u + w + v);
    TitleIsPositional(u + "_" + v);
    BlankRunSplits(u, w, v);
    BlankRunSplits(u, "_", v);
  }

  // ---------------------------------------------------------------------------
  // The quantity validator
  // ---------------------------------------------------------------------------

  /** `OrderLine.qty_greater_than_zero`: a quantity is accepted unchanged when positive, else rejected. */
  function QtyGreaterThanZero(v: int): (r: Result<int, SchemaError>)
    ensures r.Failure? <==> v <= 0
    ensures r.Failure? ==> r.error == ValueError("Quantity must be greater than zero.")
    ensures r.Success? ==> r.value == v
  {
    if v <= 0 then Failure(ValueError("Quantity must be greater than zero.")) else Success(v)
  }

  /** A line whose quantity passed validation, newly allocated, takes stock: availability strictly drops. */
  lemma ValidatedLineTakesStock(b: BatchState, line: OrderLine)
    requires QtyGreaterThanZero(line.qty).Success?
    requires b.CanAllocate(line) && line !in b.allocations
    ensures b.Allocate(line).AvailableQuantity() < b.AvailableQuantity()
  {
    AllocateReducesAvailable(b, line);
  }
}
