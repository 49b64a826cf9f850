/**
 * list.js: the navigator shown above every demo. A <select> lists the
 * demos named in the manifest; the arrow keys step its selection
 * cyclically, and every change of selection navigates to the selected
 * demo. Navigation is recorded as the sequence of targets assigned to
 * window.location.href.
 */
module DemoList {
  import opened Wrappers

  // ----- Case-insensitive matching of ASCII patterns -----

  /** The canonical form a regular expression with the `i` flag (and no
      `u` flag) compares characters by, for the characters an ASCII
      pattern can meet: ASCII lower-case letters become upper case, and no
      other character becomes ASCII, so every other character stays
      apart from the pattern's. */
  function Canonical(c: char): char
  {
    if 'a' <= c <= 'z' then (c as int - 32) as char else c
  }

  predicate EqualsIgnoringCase(s: string, t: string)
  {
    |s| == |t| && forall i :: 0 <= i < |s| ==> Canonical(s[i]) == Canonical(t[i])
  }

  /** w occurs in s at position k, ignoring case. */
  predicate MatchesAt(s: string, w: string, k: int)
  {
    0 <= k && k + |w| <= |s| && EqualsIgnoringCase(s[k .. k + |w|], w)
  }

  /** s.match(/w/i) finds a match. */
  predicate ContainsIgnoringCase(s: string, w: string)
  {
    exists k :: 0 <= k <= |s| && MatchesAt(s, w, k)
  }

  lemma PrefixContained(s: string, w: string, p: string)
    requires ContainsIgnoringCase(s, w)
    requires |p| <= |w| && p == w[..|p|]
    ensures ContainsIgnoringCase(s, p)
  {
    var k :| 0 <= k <= |s| && MatchesAt(s, w, k);
    assert k + |w| <= |s|;
    forall i | 0 <= i < |p|
      ensures Canonical(s[k .. k + |p|][i]) == Canonical(p[i])
    {
      assert s[k .. k + |p|][i] == s[k .. k + |w|][i];
    }
    assert MatchesAt(s, p, k);
  }

  // ----- The keyup handler -----

  datatype Direction = Forward | Backward

  /** Which way a key moves the selection: the guard of line 11 (any of
      the four arrow names, ignoring case) and the two branches after it,
      ArrowRight/ArrowDown tested first. */
  function KeyDirection(key: string): Option<Direction>
  {
    if ContainsIgnoringCase(key, "ArrowRight") || ContainsIgnoringCase(key, "ArrowDown") then Some(Forward)
    else if ContainsIgnoringCase(key, "ArrowLeft") || ContainsIgnoringCase(key, "ArrowUp") then Some(Backward)
    else None
  }

  lemma ContainsItself(s: string, w: string)
    requires EqualsIgnoringCase(s, w)
    ensures ContainsIgnoringCase(s, w)
  {
    assert s[0 .. |w|] == s;
    assert MatchesAt(s, w, 0);
  }

  /** A name of the same length that differs somewhere does not match. */
  lemma DiffersAt(s: string, w: string, i: int)
    requires |s| == |w| && 0 <= i < |s| && Canonical(s[i]) != Canonical(w[i])
    ensures !ContainsIgnoringCase(s, w)
  {
    assert !EqualsIgnoringCase(s[0 .. |w|], w);
  }

  lemma TooShort(s: string, w: string)
    requires |s| < |w|
    ensures !ContainsIgnoringCase(s, w)
  {
    forall k | MatchesAt(s, w, k)
      ensures false
    {
    }
  }

  /** Every spelling of the four arrow names, in any ASCII case, maps to
      its direction: the `i` flag of the three patterns. */
  lemma ArrowKeys(key: string)
    ensures EqualsIgnoringCase(key, "ArrowRight") || EqualsIgnoringCase(key, "ArrowDown") ==>
              KeyDirection(key) == Some(Forward)
    ensures EqualsIgnoringCase(key, "ArrowLeft") || EqualsIgnoringCase(key, "ArrowUp") ==>
              KeyDirection(key) == Some(Backward)
  {
    if EqualsIgnoringCase(key, "ArrowRight") {
      ContainsItself(key, "ArrowRight");
    } else if EqualsIgnoringCase(key, "ArrowDown") {
      ContainsItself(key, "ArrowDown");
      assert Canonical(key[5]) == Canonical("ArrowDown"[5]);
    } else if EqualsIgnoringCase(key, "ArrowLeft") {
      ContainsItself(key, "ArrowLeft");
      TooShort(key, "ArrowRight");
      assert Canonical(key[5]) == Canonical("ArrowLeft"[5]);
      DiffersAt(key, "ArrowDown", 5);
    } else if EqualsIgnoringCase(key, "ArrowUp") {
      ContainsItself(key, "ArrowUp");
      TooShort(key, "ArrowRight");
      TooShort(key, "ArrowDown");
    }
  }

  /** The four arrow keys as browsers name them, and one in lower case. */
  lemma StandardKeys()
    ensures KeyDirection("ArrowRight") == Some(Forward)
    ensures KeyDirection("ArrowDown") == Some(Forward)
    ensures KeyDirection("ArrowLeft") == Some(Backward)
    ensures KeyDirection("ArrowUp") == Some(Backward)
    ensures KeyDirection("arrowup") == Some(Backward)
  {
    ContainsItself("ArrowRight", "ArrowRight");
    ContainsItself("ArrowDown", "ArrowDown");
    ContainsItself("ArrowLeft", "ArrowLeft");
    ContainsItself("ArrowUp", "ArrowUp");
    ContainsItself("arrowup", "ArrowUp");
    TooShort("ArrowLeft", "ArrowRight");
    DiffersAt("ArrowLeft", "ArrowDown", 5);
    TooShort("ArrowUp", "ArrowRight");
    TooShort("ArrowUp", "ArrowDown");
    TooShort("arrowup", "ArrowRight");
    TooShort("arrowup", "ArrowDown");
  }

  /** A key whose name does not contain "Arrow" (ignoring case) is ignored. */
  lemma NonArrowKey(key: string)
    requires !ContainsIgnoringCase(key, "Arrow")
    ensures KeyDirection(key) == None
  {
    forall w | w in ["ArrowRight", "ArrowDown", "ArrowLeft", "ArrowUp"] && ContainsIgnoringCase(key, w)
      ensures false
    {
      PrefixContained(key, w, "Arrow");
    }
  }

  /** A selectedIndex a single-selection drop-down can hold: none exactly
      when there are no options. */
  predicate ValidSelection(index: int, count: nat)
  {
    if count == 0 then index == -1 else 0 <= index < count
  }

  /** (i + 1) % n, line 16: one step on, from the last back to the first. */
  function StepForward(i: int, n: nat): (r: int)
    requires 0 <= i < n
    ensures 0 <= r < n
    ensures r == if i == n - 1 then 0 else i + 1
  {
    (i + 1) % n
  }

  /** (i - 1 + n) % n, line 18: one step back, from the first to the last. */
  function StepBackward(i: int, n: nat): (r: int)
    requires 0 <= i < n
    ensures 0 <= r < n
    ensures r == if i == 0 then n - 1 else i - 1
  {
    (i - 1 + n) % n
  }

  /** A step forward and a step back undo each other. */
  lemma StepsInverse(i: int, n: nat)
    requires 0 <= i < n
    ensures StepBackward(StepForward(i, n), n) == i
    ensures StepForward(StepBackward(i, n), n) == i
  {
  }

  /** What a keyup does: the new selectedIndex, and whether a change event
      (and so a navigation) is dispatched. */
  datatype KeyResult = KeyResult(index: int, change: bool)

  /** The keyup handler with the empty list guarded, which the navigator
      uses. */
  function KeyUp(key: string, index: int, count: nat): (r: KeyResult)
    requires ValidSelection(index, count)
    ensures ValidSelection(r.index, count)
    ensures r.change <==> r.index != index
    ensures KeyDirection(key) == None || count == 0 ==> r == KeyResult(index, false)
    ensures count > 0 && KeyDirection(key) == Some(Forward) ==>
      r.index == if index == count - 1 then 0 else index + 1
    ensures count > 0 && KeyDirection(key) == Some(Backward) ==>
      r.index == if index == 0 then count - 1 else index - 1
  {
    match KeyDirection(key)
    case None => KeyResult(index, false)
    case Some(d) =>
      if count == 0 then KeyResult(index, false)
      else
        var next := if d == Forward then StepForward(index, count) else StepBackward(index, count);
        KeyResult(next, next != index)
  }

  /** With a single option the arrows never navigate. */
  lemma SingleOptionNeverNavigates(key: string)
    ensures KeyUp(key, 0, 1) == KeyResult(0, false)
  {
  }

  // ----- The keyup handler as written -----

  /** A JavaScript number as the handler can produce it: an integer index,
      or NaN. `WebGL.Number` is the real-valued counterpart for times and
      GLfloats; the two modules share no values, so each keeps its own. */
  datatype JsNumber = Int(v: int) | NaN

  /** JavaScript's a % n for an integer a and a length n: NaN when n is 0,
      otherwise truncating, with the sign of a. */
  function JsRemainder(a: int, n: nat): (r: JsNumber)
    ensures r.NaN? <==> n == 0
    ensures n > 0 && a >= 0 ==> r == Int(a % n)
    ensures r.Int? ==> -(n as int) < r.v < n
    ensures r.Int? ==> (a - r.v) % (n as int) == 0
    ensures r.Int? ==> (a < 0 ==> r.v <= 0) && (a >= 0 ==> r.v >= 0)
  {
    if n == 0 then NaN
    else if a >= 0 then
      RemainderDifference(a, n);
      Int(a % n)
    else
      RemainderDifference(-a, n);
      NegatedMultiple(a + (-a) % n, n);
      Int(-((-a) % n))
  }

  /** x minus its remainder is a multiple of n. */
  lemma RemainderDifference(x: int, n: int)
    requires n > 0
    ensures (x - x % n) % n == 0
  {
    ModOfMultiple(x / n, n);
  }

  /** A multiple of n negated is still one. */
  lemma NegatedMultiple(x: int, n: int)
    requires n > 0 && (-x) % n == 0
    ensures x % n == 0
  {
    var q := (-x) / n;
    assert x == (-q) * n;
    ModOfMultiple(-q, n);
  }

  /** q * n leaves no remainder, from the Euclidean division identity. */
  lemma ModOfMultiple(q: int, n: int)
    requires n > 0
    ensures (q * n) % n == 0
  {
    var d := (q * n) / n;
    assert (q - d) * n == (q * n) % n;
    if q - d > 0 {
      MulAtLeast(q - d, n);
    } else if q - d < 0 {
      MulAtLeast(d - q, n);
    }
  }

  lemma MulAtLeast(k: int, n: int)
    requires k >= 1 && n > 0
    ensures k * n >= n
  {
  }

  /** `index != selectedIndex`: NaN differs from every number. */
  predicate JsDiffers(x: JsNumber, y: int)
  {
    x.NaN? || x.v != y
  }

  /** Setting selectedIndex: the value is converted to a WebIDL long (NaN
      becomes 0); an index with no option selects nothing. */
  function SelectedIndexAfterSet(x: JsNumber, count: nat): (r: int)
    ensures ValidSelection(r, count) || r == -1
    ensures x.Int? && 0 <= x.v < count ==> r == x.v
    ensures x.Int? && !(0 <= x.v < count) ==> r == -1
    ensures x.NaN? ==> r == (if count > 0 then 0 else -1)
  {
    var k := if x.NaN? then 0 else x.v;
    if 0 <= k < count then k else -1
  }

  /** Lines 11-24 as written. */
  function KeyUpAsWritten(key: string, index: int, count: nat): (r: KeyResult)
    ensures KeyDirection(key) == None ==> r == KeyResult(index, false)
  {
    match KeyDirection(key)
    case None => KeyResult(index, false)
    case Some(d) =>
      var next := if d == Forward then JsRemainder(index + 1, count) else JsRemainder(index - 1 + count, count);
      if JsDiffers(next, index) then KeyResult(SelectedIndexAfterSet(next, count), true)
      else KeyResult(index, false)
  }

  /** With no options yet (before the manifest has loaded, or when it is
      empty) an arrow key computes NaN, which differs from -1, so a change
      event fires and the page navigates to the empty value of an empty
      <select>, reloading itself. The guarded handler does nothing. */
  lemma EmptyListNavigates(key: string)
    requires KeyDirection(key) != None
    ensures KeyUpAsWritten(key, -1, 0) == KeyResult(-1, true)
    ensures KeyUp(key, -1, 0) == KeyResult(-1, false)
  {
  }

  /** Once there are options the handler as written and the guarded one
      agree on every key. */
  lemma AsWrittenAgreesWhenNonEmpty(key: string, index: int, count: nat)
    requires count > 0 && ValidSelection(index, count)
    ensures KeyUpAsWritten(key, index, count) == KeyUp(key, index, count)
  {
  }

  // ----- Building the options -----

  datatype OptionElement = OptionElement(text: string, value: string)

  /** The option built for one manifest item, lines 34-36. */
  function MakeOption(item: string): OptionElement
  {
    OptionElement(item, "../" + item)
  }

  /** The options built for a manifest, in manifest order. */
  function Options(manifest: seq<string>): (r: seq<OptionElement>)
    ensures |r| == |manifest|
    ensures forall k :: 0 <= k < |r| ==> r[k].text == manifest[k] && r[k].value == "../" + manifest[k]
  {
    seq(|manifest|, k requires 0 <= k < |manifest| => MakeOption(manifest[k]))
  }

  /** Building one more option extends the options by it. */
  lemma OptionsStep(items: seq<string>, item: string)
    ensures Options(items + [item]) == Options(items) + [MakeOption(item)]
  {
  }

  /** An option's navigation target names its item: two items with the
      same target are the same item. */
  lemma TargetDeterminesItem(a: string, b: string)
    requires MakeOption(a).value == MakeOption(b).value
    ensures a == b
  {
    assert a == MakeOption(a).value[3..];
    assert b == MakeOption(b).value[3..];
  }

  /** The test of lines 38-40: the page path is "/" + item + "/", ignoring case. */
  predicate PathMatches(pathname: string, item: string)
  {
    EqualsIgnoringCase(pathname, "/" + item + "/")
  }

  /** A path matches an item exactly when it is the item, in any case,
      between two slashes. */
  lemma PathMatchesShape(pathname: string, item: string)
    ensures PathMatches(pathname, item) <==>
      |pathname| == |item| + 2 && pathname[0] == '/' && pathname[|pathname| - 1] == '/' &&
      EqualsIgnoringCase(pathname[1 .. |pathname| - 1], item)
  {
    var w := "/" + item + "/";
    if PathMatches(pathname, item) {
      assert Canonical(pathname[0]) == Canonical(w[0]);
      assert Canonical(pathname[|pathname| - 1]) == Canonical(w[|w| - 1]);
      forall i | 0 <= i < |item|
        ensures Canonical(pathname[1 .. |pathname| - 1][i]) == Canonical(item[i])
      {
        assert w[i + 1] == item[i];
      }
    }
    if |pathname| == |item| + 2 && pathname[0] == '/' && pathname[|pathname| - 1] == '/' &&
       EqualsIgnoringCase(pathname[1 .. |pathname| - 1], item) {
      forall i | 0 <= i < |pathname|
        ensures Canonical(pathname[i]) == Canonical(w[i])
      {
        if 0 < i < |pathname| - 1 {
          assert pathname[1 .. |pathname| - 1][i - 1] == pathname[i];
          assert w[i] == item[i - 1];
        }
      }
    }
  }

  /** The index of the last item whose path matches, or -1. */
  function LastMatch(pathname: string, items: seq<string>): (r: int)
    ensures -1 <= r < |items|
    ensures r >= 0 ==> PathMatches(pathname, items[r])
    ensures forall k :: r < k < |items| ==> !PathMatches(pathname, items[k])
  {
    if |items| == 0 then -1
    else if PathMatches(pathname, items[|items| - 1]) then |items| - 1
    else LastMatch(pathname, items[..|items| - 1])
  }

  /** The selectedIndex of a drop-down with `count` options after the
      options for `items` are appended: an appended option flagged selected
      takes the selection from the ones before it, so the last matching item
      wins; with no match, the first option is selected once there is one. */
  function SelectionAfterLoad(index: int, count: nat, pathname: string, items: seq<string>): (r: int)
    requires ValidSelection(index, count)
    ensures ValidSelection(r, count + |items|)
    ensures (exists k :: 0 <= k < |items| && PathMatches(pathname, items[k])) ==>
      count <= r && PathMatches(pathname, items[r - count]) &&
      forall k :: r - count < k < |items| ==> !PathMatches(pathname, items[k])
    ensures (forall k :: 0 <= k < |items| ==> !PathMatches(pathname, items[k])) ==>
      r == if index == -1 && |items| > 0 then 0 else index
  {
    var m := LastMatch(pathname, items);
    if m >= 0 then count + m
    else if index == -1 && |items| > 0 then 0
    else index
  }

  /** Appending one more option extends the selection rule by one step. */
  lemma SelectionStep(index: int, count: nat, pathname: string, items: seq<string>, item: string)
    requires ValidSelection(index, count)
    ensures var before := SelectionAfterLoad(index, count, pathname, items);
            SelectionAfterLoad(index, count, pathname, items + [item]) ==
              if PathMatches(pathname, item) then count + |items|
              else if before == -1 then 0 else before
  {
    assert (items + [item])[..|items|] == items;
  }

  /** The navigation target of a selection: the selected option's value, or
      the empty string when nothing is selected. */
  function SelectedValue(options: seq<OptionElement>, index: int): (v: string)
    ensures 0 <= index < |options| ==> v == options[index].value
    ensures index == -1 ==> v == ""
  {
    if 0 <= index < |options| then options[index].value else ""
  }

  /** After loading into an empty list, the target is "../" + the item
      selected, which is the last one matching the page path when any
      does, and the first item otherwise. */
  lemma LoadedTarget(pathname: string, manifest: seq<string>)
    requires |manifest| > 0
    ensures var i := SelectionAfterLoad(-1, 0, pathname, manifest);
            0 <= i < |manifest| &&
            SelectedValue(Options(manifest), i) == "../" + manifest[i] &&
            (LastMatch(pathname, manifest) >= 0 ==> i == LastMatch(pathname, manifest)) &&
            (LastMatch(pathname, manifest) == -1 ==> i == 0)
  {
  }

  // ----- The select element and its handlers -----

  class Navigator {
    var options: seq<OptionElement>
    var selectedIndex: int
    /** window.location.pathname */
    const pathname: string
    /** Every value assigned to window.location.href, in order. */
    var navigations: seq<string>

    predicate Valid()
      reads this
    {
      ValidSelection(selectedIndex, |options|)
    }

    constructor (pathname: string)
      ensures Valid()
      ensures this.pathname == pathname
      ensures options == [] && selectedIndex == -1 && navigations == []
    {
      this.pathname := pathname;
      options, selectedIndex, navigations := [], -1, [];
    }

    /** $select.value */
    function Value(): (v: string)
      reads this`options, this`selectedIndex
      ensures 0 <= selectedIndex < |options| ==> v == options[selectedIndex].value
      ensures selectedIndex == -1 ==> v == ""
    {
      SelectedValue(options, selectedIndex)
    }

    /** The change handler, lines 6-8. */
    method OnChange()
      modifies this`navigations
      ensures navigations == old(navigations) + [Value()]
    {
      navigations := navigations + [Value()];
    }

    /** The keyup handler, lines 10-25, with no step taken when there are
        no options. */
    method OnKeyUp(key: string)
      requires Valid()
      modifies this`selectedIndex, this`navigations
      ensures Valid()
      ensures selectedIndex == KeyUp(key, old(selectedIndex), |options|).index
      ensures navigations == old(navigations) +
        if KeyUp(key, old(selectedIndex), |options|).change then [Value()] else []
    {
      var direction := KeyDirection(key);
      if direction == None {
        return;
      }
      var count := |options|;
      var index := selectedIndex;
      if count > 0 {
        if direction == Some(Forward) {
          index := (selectedIndex + 1) % count;
        } else {
          index := (selectedIndex - 1 + count) % count;
        }
      }
      if index != selectedIndex {
        selectedIndex := index;
        OnChange();
      }
    }

    /** $select.appendChild($option), where `selected` is the option's own
        selectedness: a selected option takes the selection, and otherwise
        the first option is selected when it is the only one. */
    method Append(option: OptionElement, selected: bool)
      requires Valid()
      modifies this`options, this`selectedIndex
      ensures Valid()
      ensures options == old(options) + [option]
      ensures selected ==> selectedIndex == |old(options)|
      ensures !selected ==> selectedIndex == if old(selectedIndex) == -1 then 0 else old(selectedIndex)
    {
      options := options + [option];
      if selected {
        selectedIndex := |options| - 1;
      } else if selectedIndex == -1 {
        selectedIndex := 0;
      }
    }

    /** One iteration of the onload loop, lines 36-44: the option for item,
        flagged selected when the page path matches it. */
    method LoadItem(item: string, ghost before: seq<OptionElement>, ghost index: int, ghost prefix: seq<string>)
      requires Valid() && ValidSelection(index, |before|)
      requires options == before + Options(prefix)
      requires selectedIndex == SelectionAfterLoad(index, |before|, pathname, prefix)
      modifies this`options, this`selectedIndex
      ensures Valid()
      ensures options == before + Options(prefix + [item])
      ensures selectedIndex == SelectionAfterLoad(index, |before|, pathname, prefix + [item])
    {
      var option := OptionElement(item, "../" + item);
      var selected := PathMatches(pathname, item);
      SelectionStep(index, |before|, pathname, prefix, item);
      OptionsStep(prefix, item);
      Append(option, selected);
    }

    /** xhr.onload, lines 32-46: one option per manifest item, in order,
        flagged selected when the page path is "/" + item + "/". */
    method OnLoad(manifest: seq<string>)
      requires Valid()
      modifies this`options, this`selectedIndex
      ensures Valid()
      ensures options == old(options) + Options(manifest)
      ensures selectedIndex == SelectionAfterLoad(old(selectedIndex), |old(options)|, pathname, manifest)
    {
      ghost var before, index := options, selectedIndex;
      var i := 0;
      while i < |manifest|
        invariant 0 <= i <= |manifest|
        invariant Valid()
        invariant options == before + Options(manifest[..i])
        invariant selectedIndex == SelectionAfterLoad(index, |before|, pathname, manifest[..i])
      {
        assert manifest[..i + 1] == manifest[..i] + [manifest[i]];
        LoadItem(manifest[i], before, index, manifest[..i]);
        i := i + 1;
      }
      assert manifest[..i] == manifest;
    }
  }
}
