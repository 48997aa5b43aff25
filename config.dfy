/**
 * `Settings.api_keys_list` (app/config.py): the comma-separated API_KEYS
 * setting turned into a list of keys.
 */
module Config {
  import opened Text

  /** `key.strip()` applied to every piece. */
  function StripEach(pieces: seq<string>): (r: seq<string>)
    ensures |r| == |pieces|
    ensures forall i :: 0 <= i < |pieces| ==> r[i] == Strip(pieces[i], Whitespace)
    decreases |pieces|
  {
    if pieces == [] then []
    else [Strip(pieces[0], Whitespace)] + StripEach(pieces[1..])
  }

  /** `a` is `b` with some entries dropped and the rest kept in order. */
  predicate IsSubsequence(a: seq<string>, b: seq<string>)
    decreases |b|
  {
    if a == [] then true
    else if b == [] then false
    else if a[0] == b[0] then IsSubsequence(a[1..], b[1..])
    else IsSubsequence(a, b[1..])
  }

  /** The filter `if key.strip()`: drops the empty pieces and keeps the order of the others. */
  function KeepNonEmpty(pieces: seq<string>): (r: seq<string>)
    ensures |r| <= |pieces|
    ensures forall x :: x in r <==> x in pieces && x != ""
    ensures IsSubsequence(r, pieces)
    ensures multiset(r) == multiset(pieces)[[] := 0]
    decreases |pieces|
  {
    if pieces == [] then []
    else
      assert pieces == [pieces[0]] + pieces[1..];
      assert multiset(pieces) == multiset{pieces[0]} + multiset(pieces[1..]);
      if pieces[0] == "" then
        var r := KeepNonEmpty(pieces[1..]);
        assert r != [] ==> r[0] in r;
        r
      else
        var rest := KeepNonEmpty(pieces[1..]);
        assert forall x :: x in pieces <==> x == pieces[0] || x in pieces[1..];
        assert ([pieces[0]] + rest)[1..] == rest;
        assert multiset([pieces[0]] + rest) == multiset{pieces[0]} + multiset(rest);
        [pieces[0]] + rest
  }

  /**
   * `api_keys_list`: an empty setting gives no keys; otherwise the pieces
   * between commas, stripped of whitespace, without the empty ones.
   */
  function ApiKeysList(apiKeys: string): (keys: seq<string>)
    ensures apiKeys == [] ==> keys == []
    ensures forall k :: k in keys ==> k != [] && k[0] !in Whitespace && k[|k| - 1] !in Whitespace
    ensures IsSubsequence(keys, StripEach(Split(apiKeys, ',')))
    ensures forall x :: x in keys <==> x in StripEach(Split(apiKeys, ',')) && x != []
    ensures multiset(keys) == multiset(StripEach(Split(apiKeys, ',')))[[] := 0]
    ensures |keys| <= CountOf(apiKeys, ',') + 1
  {
    if apiKeys == [] then
      assert Split(apiKeys, ',') == [""];
      assert StripEach([""]) == [Strip("", Whitespace)];
      []
    else
      SplitCount(apiKeys, ',');
      KeepNonEmpty(StripEach(Split(apiKeys, ',')))
  }

  lemma SliceKeepsAbsent(r: string, s: string, c: char)
    requires IsSlice(r, s) && c !in s
    ensures c !in r
  {
    var a, b :| 0 <= a <= b <= |s| && r == s[a..b];
    assert forall j :: 0 <= j < |r| ==> r[j] == s[a + j];
  }

  /** No key contains a comma: a comma always separates two keys. */
  lemma KeysHaveNoComma(apiKeys: string)
    ensures forall k :: k in ApiKeysList(apiKeys) ==> ',' !in k
  {
    SplitPiecesFree(apiKeys, ',');
    var pieces := Split(apiKeys, ',');
    var stripped := StripEach(pieces);
    forall i | 0 <= i < |stripped| ensures ',' !in stripped[i] {
      SliceKeepsAbsent(stripped[i], pieces[i], ',');
    }
  }

  lemma ExampleSplit()
    ensures Split("a, b,,", ',') == ["a", " b", "", ""]
  {
    var s := "a, b,,";
    assert s[1..] == ", b,," && s[2..] == " b,," && s[3..] == "b,," && s[4..] == ",," && s[5..] == ",";
    assert s[1..][1..] == s[2..] && s[2..][1..] == s[3..] && s[3..][1..] == s[4..] && s[4..][1..] == s[5..];
    assert s[5..][1..] == "";
    assert Split(",", ',') == ["", ""];
    assert Split(",,", ',') == ["", "", ""];
    assert ['b'] + "" == "b" && [' '] + "b" == " b" && ['a'] + "" == "a";
    assert Split("b,,", ',') == ["b", "", ""];
    assert Split(" b,,", ',') == [" b", "", ""];
    assert Split(", b,,", ',') == ["", " b", "", ""];
  }

  lemma ExampleStripSpace()
    ensures Strip(" b", Whitespace) == "b"
  {
    var s := " b";
    assert s[0] == ' ' && s[1..] == "b";
    assert 'b' !in Whitespace;
    assert TrimStart("b", Whitespace) == "b";
    assert TrimStart(s, Whitespace) == "b";
    assert TrimEnd("b", Whitespace) == "b";
  }

  lemma ExampleKeep()
    ensures KeepNonEmpty(["a", "b", "", ""]) == ["a", "b"]
  {
    assert KeepNonEmpty([""]) == [] by {
      assert [""][1..] == [];
    }
    assert KeepNonEmpty(["", ""]) == [] by {
      assert ["", ""][1..] == [""];
    }
    assert KeepNonEmpty(["b", "", ""]) == ["b"] by {
      assert ["b", "", ""][1..] == ["", ""];
    }
    var t := ["a", "b", "", ""];
    assert t[1..] == ["b", "", ""];
    assert ["a"] + ["b"] == ["a", "b"];
  }

  /** A setting holding one clean key yields exactly that key. */
  lemma SingleKey(key: string)
    requires key != [] && key[0] !in Whitespace && key[|key| - 1] !in Whitespace && ',' !in key
    ensures ApiKeysList(key) == [key]
  {
    SplitWithoutSeparator(key, ',');
    StripUnchanged(key, Whitespace);
    assert [key][1..] == [];
    assert StripEach([key]) == [key];
  }

  /** A key listed twice is kept twice: "a,a" gives ["a", "a"]. */
  lemma RepeatedKeyKeptTwice()
    ensures ApiKeysList("a,a") == ["a", "a"]
  {
    var s := "a,a";
    assert s[1..] == ",a" && s[1..][1..] == "a" && s[1..][1..][1..] == "";
    assert ['a'] + "" == "a" && [""][1..] == [];
    assert Split("a", ',') == ["a"];
    assert Split(",a", ',') == ["", "a"];
    assert Split(s, ',') == ["a", "a"];
    StripUnchanged("a", Whitespace);
    assert StripEach(["a", "a"]) == ["a", "a"] by {
      assert ["a", "a"][1..] == ["a"] && ["a"][1..] == [];
    }
    assert KeepNonEmpty(["a", "a"]) == ["a", "a"] by {
      assert ["a", "a"][1..] == ["a"] && ["a"][1..] == [];
    }
  }
}
