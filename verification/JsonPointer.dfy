/** JSON values and the local references ("#/a/b") of a schema, which are JSON Pointers of RFC 6901. */
module JsonPointer {
  import opened Common

  /** A number keeps its text beside its value. */
  datatype Json =
    | Null
    | Bool(b: bool)
    | Number(text: string, value: real)
    | Str(s: string)
    | Array(items: seq<Json>)
    | Object(fields: map<string, Json>)

  // ---------------------------------------------------------------- tokens

  /** strings.ReplaceAll for a two-character pattern and a one-character replacement. */
  function ReplaceAll(s: string, first: char, second: char, replacement: char): string {
    if |s| >= 2 && s[0] == first && s[1] == second then [replacement] + ReplaceAll(s[2..], first, second, replacement)
    else if s == "" then ""
    else [s[0]] + ReplaceAll(s[1..], first, second, replacement)
  }

  /** The code's decoding of a token. */
  function Unescape(token: string): string {
    ReplaceAll(ReplaceAll(token, '~', '1', '/'), '~', '0', '~')
  }

  /** The encoding of section 3 of RFC 6901: "~" becomes "~0" and "/" becomes "~1". */
  function Escape(name: string): string {
    if name == "" then ""
    else (if name[0] == '~' then "~0" else if name[0] == '/' then "~1" else [name[0]]) + Escape(name[1..])
  }

  /** After the first replacement: slashes are back, tildes are still encoded. */
  function HalfEscape(name: string): string {
    if name == "" then "" else (if name[0] == '~' then "~0" else [name[0]]) + HalfEscape(name[1..])
  }

  lemma {:induction false} UnescapeSlashes(name: string)
    ensures ReplaceAll(Escape(name), '~', '1', '/') == HalfEscape(name)
  {
    if name != "" {
      UnescapeSlashes(name[1..]);
      var rest := Escape(name[1..]);
      if name[0] == '~' {
        assert Escape(name) == ['~', '0'] + rest;
        assert Escape(name)[1..] == ['0'] + rest && (['0'] + rest)[1..] == rest;
        assert ReplaceAll(['0'] + rest, '~', '1', '/') == ['0'] + ReplaceAll(rest, '~', '1', '/');
      } else if name[0] == '/' {
        assert Escape(name)[2..] == rest;
      } else {
        assert Escape(name)[1..] == rest;
      }
    }
  }

  lemma {:induction false} UnescapeTildes(name: string)
    ensures ReplaceAll(HalfEscape(name), '~', '0', '~') == name
  {
    if name != "" {
      UnescapeTildes(name[1..]);
      var rest := HalfEscape(name[1..]);
      if name[0] == '~' {
        assert HalfEscape(name)[2..] == rest;
      } else {
        assert HalfEscape(name)[1..] == rest;
      }
      assert name == [name[0]] + name[1..];
    }
  }

  /** Decoding undoes encoding, for every name. */
  lemma TokenRoundTrip(name: string)
    ensures Unescape(Escape(name)) == name
  {
    UnescapeSlashes(name);
    UnescapeTildes(name);
  }

  // ---------------------------------------------------------------- paths

  /** strings.Split on "/". */
  function Split(s: string): (tokens: seq<string>)
    ensures tokens != []
  {
    if s == "" then [""]
    else
      var rest := Split(s[1..]);
      if s[0] == '/' then [""] + rest else [[s[0]] + rest[0]] + rest[1..]
  }

  function Join(tokens: seq<string>): string {
    if tokens == [] then "" else if |tokens| == 1 then tokens[0] else tokens[0] + "/" + Join(tokens[1..])
  }

  lemma {:induction false} SplitWhole(token: string)
    requires '/' !in token
    ensures Split(token) == [token]
  {
    if token != "" {
      SplitWhole(token[1..]);
      assert token == [token[0]] + token[1..];
    }
  }

  lemma {:induction false} SplitToken(token: string, rest: string)
    requires '/' !in token
    ensures Split(token + "/" + rest) == [token] + Split(rest)
  {
    var s := token + "/" + rest;
    if token == "" {
      assert s[1..] == rest;
    } else {
      SplitToken(token[1..], rest);
      assert s[1..] == token[1..] + "/" + rest;
      assert [token[0]] + token[1..] == token;
      assert ([token[1..]] + Split(rest))[1..] == Split(rest);
    }
  }

  lemma {:induction false} SplitJoin(tokens: seq<string>)
    requires tokens != [] && forall t | t in tokens :: '/' !in t
    ensures Split(Join(tokens)) == tokens
  {
    if |tokens| == 1 {
      SplitWhole(tokens[0]);
    } else {
      SplitToken(tokens[0], Join(tokens[1..]));
      SplitJoin(tokens[1..]);
    }
  }

  // ---------------------------------------------------------------- array indices

  predicate Digits(s: string) {
    s != "" && forall i | 0 <= i < |s| :: '0' <= s[i] <= '9'
  }

  function Decimal(s: string): nat
    requires forall i | 0 <= i < |s| :: '0' <= s[i] <= '9'
  {
    if s == "" then 0 else Decimal(s[..|s| - 1]) * 10 + (s[|s| - 1] as int - '0' as int)
  }

  /** strconv.Atoi: an optional sign and digits. */
  function Atoi(s: string): Option<int> {
    if s != "" && s[0] == '+' && Digits(s[1..]) then Some(Decimal(s[1..]))
    else if s != "" && s[0] == '-' && Digits(s[1..]) then var n: int := Decimal(s[1..]); Some(-n)
    else if Digits(s) then Some(Decimal(s))
    else None
  }

  /** The index a token stands for, if any. */
  function Index(token: string): Option<nat> {
    var n := Atoi(token);
    if n.Some? && n.value >= 0 then Some(n.value) else None
  }

  /** An array index of section 4 of RFC 6901: digits without a leading zero. */
  predicate IsIndex(token: string) {
    Digits(token) && (|token| == 1 || token[0] != '0')
  }

  function StandardIndex(token: string): Option<nat> {
    if IsIndex(token) then Some(Decimal(token)) else None
  }

  /** What the code reads as an index beyond the standard: a leading sign, or leading zeros. */
  predicate Lenient(token: string) {
    && |token| >= 2
    && ((token[0] == '+' && Digits(token[1..])) || (token[0] == '-' && Digits(token[1..]) && Decimal(token[1..]) == 0) || (token[0] == '0' && Digits(token)))
  }

  /** The code and the standard read a token alike exactly when it is not one of these. */
  lemma IndexExact(token: string)
    ensures Index(token) == StandardIndex(token) <==> !Lenient(token)
  {
    if token != "" && !IsIndex(token) && Digits(token) { assert token[0] == '0'; }
  }

  /** "#/allOf/+1" is accepted: a token the standard does not know as an index. */
  lemma SignedIndex()
    ensures Index("+1") == Some(1) && StandardIndex("+1") == None
    ensures Index("01") == Some(1) && StandardIndex("01") == None
  {
    assert "+1"[1..] == "1" && "1"[..0] == "" && Decimal("1") == 1;
    assert "01"[..1] == "0" && "0"[..0] == "" && Decimal("0") == 0;
  }

  // ---------------------------------------------------------------- resolution

  function Child(current: Json, token: string, index: string -> Option<nat>): Option<Json> {
    match current
    case Object(fields) => Get(fields, token)
    case Array(items) =>
      var i := index(token);
      if i.Some? && i.value < |items| then Some(items[i.value]) else None
    case _ => None
  }

  /** The value at the end of a path of tokens. */
  function Follow(current: Json, tokens: seq<string>, index: string -> Option<nat>): Option<Json> {
    if tokens == [] then Some(current)
    else
      var before := Follow(current, tokens[..|tokens| - 1], index);
      if before.None? then None else Child(before.value, tokens[|tokens| - 1], index)
  }

  function UnescapeAll(tokens: seq<string>): seq<string> {
    seq(|tokens|, i requires 0 <= i < |tokens| => Unescape(tokens[i]))
  }

  function EscapeAll(names: seq<string>): seq<string> {
    seq(|names|, i requires 0 <= i < |names| => Escape(names[i]))
  }

  /** What a reference stands for. */
  function Target(root: Json, ref: string): Option<Json> {
    if ref == "#" then Some(root)
    else if !IsPath(ref) then None
    else Follow(root, UnescapeAll(Split(ref[2..])), Index)
  }

  /** resolveLocalReference. */
  method ResolveLocalReference(root: Json, ref: string) returns (target: Option<Json>)
    ensures target == Target(root, ref)
  {
    if ref == "#" {
      return Some(root);
    }
    if |ref| < 2 || ref[0] != '#' || ref[1] != '/' {
      return None;
    }
    var tokens := Split(ref[2..]);
    var current := root;
    ghost var names := UnescapeAll(tokens);
    for i := 0 to |tokens|
      invariant Follow(root, names[..i], Index) == Some(current)
    {
      var token := Unescape(tokens[i]);
      assert names[i] == token && names[..i + 1][..i] == names[..i];
      var next := Child(current, token, Index);
      if next.None? {
        FollowFails(root, names, i + 1);
        return None;
      }
      current := next.value;
    }
    assert names[..|tokens|] == names;
    return Some(current);
  }

  lemma {:induction false} FollowFails(root: Json, names: seq<string>, k: nat)
    requires k <= |names| && Follow(root, names[..k], Index) == None
    ensures Follow(root, names, Index) == None
    decreases |names| - k
  {
    if k == |names| {
      assert names[..k] == names;
    } else {
      assert names[..k + 1][..k] == names[..k];
      FollowFails(root, names, k + 1);
    }
  }

  lemma {:induction false} EscapeHasNoSlash(name: string)
    ensures '/' !in Escape(name)
  {
    if name != "" { EscapeHasNoSlash(name[1..]); }
  }

  /** Every path of names is written by some reference, and the reference leads where the path leads. */
  lemma ReferenceRoundTrip(root: Json, names: seq<string>)
    requires names != []
    ensures Target(root, "#/" + Join(EscapeAll(names))) == Follow(root, names, Index)
  {
    var tokens := EscapeAll(names);
    forall t | t in tokens ensures '/' !in t {
      var i :| 0 <= i < |tokens| && tokens[i] == t;
      EscapeHasNoSlash(names[i]);
    }
    SplitJoin(tokens);
    assert ("#/" + Join(tokens))[2..] == Join(tokens);
    forall i | 0 <= i < |names| ensures Unescape(tokens[i]) == names[i] { TokenRoundTrip(names[i]); }
    assert UnescapeAll(tokens) == names;
  }

  /** On paths without lenient indices, references are evaluated as section 4 of RFC 6901 says. */
  lemma {:induction false} FollowsStandard(root: Json, names: seq<string>)
    requires forall n | n in names :: !Lenient(n)
    ensures Follow(root, names, Index) == Follow(root, names, StandardIndex)
  {
    if names != [] {
      FollowsStandard(root, names[..|names| - 1]);
      IndexExact(names[|names| - 1]);
    }
  }

  // ---------------------------------------------------------------- references as the standard reads them

  /** Section 3 of RFC 6901: every "~" begins "~0" or "~1". */
  predicate WellFormed(token: string) {
    forall i | 0 <= i < |token| && token[i] == '~' :: i + 1 < |token| && (token[i + 1] == '0' || token[i + 1] == '1')
  }

  /** The name a well-formed token stands for. */
  function Decode(token: string): string {
    if token == "" then ""
    else if |token| >= 2 && token[0] == '~' then [if token[1] == '1' then '/' else '~'] + Decode(token[2..])
    else [token[0]] + Decode(token[1..])
  }

  lemma WellFormedRest(token: string)
    requires WellFormed(token) && token != ""
    ensures token[0] == '~' ==> |token| >= 2 && WellFormed(token[2..])
    ensures token[0] != '~' ==> WellFormed(token[1..])
  {
    var k := if token[0] == '~' then 2 else 1;
    forall i | 0 <= i < |token| - k && token[k..][i] == '~'
      ensures i + 1 < |token| - k && (token[k..][i + 1] == '0' || token[k..][i + 1] == '1')
    {
      assert token[i + k] == '~';
    }
  }

  /** A token of a reference is the encoding of the name it stands for. */
  lemma {:induction false} EncodesDecoded(token: string)
    requires WellFormed(token) && '/' !in token
    ensures Escape(Decode(token)) == token
    decreases |token|
  {
    if token != "" {
      WellFormedRest(token);
      if token[0] == '~' {
        EncodesDecoded(token[2..]);
        var name := Decode(token);
        assert name[1..] == Decode(token[2..]);
        assert token == [token[0], token[1]] + token[2..];
      } else {
        EncodesDecoded(token[1..]);
        var name := Decode(token);
        assert name[1..] == Decode(token[1..]);
        assert token == [token[0]] + token[1..];
      }
    }
  }

  /** On well-formed tokens the two replacements of the code decode. */
  lemma UnescapeDecodes(token: string)
    requires WellFormed(token) && '/' !in token
    ensures Unescape(token) == Decode(token)
  {
    EncodesDecoded(token);
    TokenRoundTrip(Decode(token));
  }

  lemma {:induction false} SplitHasNoSlash(s: string)
    ensures forall t | t in Split(s) :: '/' !in t
  {
    if s != "" {
      SplitHasNoSlash(s[1..]);
      var rest := Split(s[1..]);
      forall t | t in Split(s) ensures '/' !in t {
        if s[0] != '/' && t == [s[0]] + rest[0] { assert rest[0] in rest; }
      }
    }
  }

  function DecodeAll(tokens: seq<string>): seq<string> {
    seq(|tokens|, i requires 0 <= i < |tokens| => Decode(tokens[i]))
  }

  /** The tokens of a reference. */
  function Tokens(ref: string): seq<string>
    requires IsPath(ref)
  {
    Split(ref[2..])
  }

  predicate IsPath(ref: string) {
    |ref| >= 2 && ref[0] == '#' && ref[1] == '/'
  }

  /** What a reference stands for in the standard: an error for a malformed token, sections 3 and 4 of RFC 6901. */
  function StandardTarget(root: Json, ref: string): Option<Json> {
    if ref == "#" then Some(root)
    else if !IsPath(ref) then None
    else if forall t | t in Tokens(ref) :: WellFormed(t) then Follow(root, DecodeAll(Tokens(ref)), StandardIndex)
    else None
  }

  /** The reference is written as the standard asks: escapes are complete, indices are plain. */
  predicate Strict(ref: string) {
    IsPath(ref) ==> forall t | t in Tokens(ref) :: WellFormed(t) && !Lenient(Unescape(t))
  }

  lemma StrictAgrees(root: Json, ref: string)
    requires Strict(ref)
    ensures Target(root, ref) == StandardTarget(root, ref)
  {
    if IsPath(ref) {
      var tokens := Tokens(ref);
      SplitHasNoSlash(ref[2..]);
      forall i | 0 <= i < |tokens| ensures UnescapeAll(tokens)[i] == DecodeAll(tokens)[i] && !Lenient(UnescapeAll(tokens)[i]) {
        assert tokens[i] in tokens;
        UnescapeDecodes(tokens[i]);
      }
      assert UnescapeAll(tokens) == DecodeAll(tokens);
      FollowsStandard(root, UnescapeAll(tokens));
    }
  }

  // ---------------------------------------------------------------- and only then

  /** A document with one value at the end of a path: objects all the way, but an array at place `k`. */
  function Along(names: seq<string>, k: nat): Json
    requires k < |names| ==> Index(names[k]).Some?
    decreases |names|
  {
    if names == [] then Null
    else if k == 0 then
      var i := Index(names[0]).value;
      Array(seq(i + 1, j => Along(names[1..], |names|)))
    else Object(map[names[0] := Along(names[1..], k - 1)])
  }

  lemma {:induction false} FollowFirst(current: Json, names: seq<string>, index: string -> Option<nat>)
    requires names != []
    ensures Follow(current, names, index) ==
            var next := Child(current, names[0], index); if next.None? then None else Follow(next.value, names[1..], index)
    decreases |names|
  {
    if |names| == 1 {
      assert names[..0] == [] && names[1..] == [];
    } else {
      var init := names[..|names| - 1];
      FollowFirst(current, init, index);
      assert init[1..] == names[1..][..|names| - 2];
    }
  }

  /** The code finds the value. */
  lemma {:induction false} AlongIsFound(names: seq<string>, k: nat)
    requires k < |names| ==> Index(names[k]).Some?
    ensures Follow(Along(names, k), names, Index).Some?
    decreases |names|
  {
    if names != [] {
      FollowFirst(Along(names, k), names, Index);
      if k == 0 {
        AlongIsFound(names[1..], |names|);
      } else {
        AlongIsFound(names[1..], k - 1);
      }
    }
  }

  /** The standard does not, where the array is indexed by a name it does not take for an index. */
  lemma {:induction false} AlongIsLost(names: seq<string>, k: nat)
    requires k < |names| && Lenient(names[k]) && Index(names[k]).Some?
    ensures Follow(Along(names, k), names, StandardIndex).None?
    decreases |names|
  {
    FollowFirst(Along(names, k), names, StandardIndex);
    if k == 0 {
      LenientIsNoIndex(names[0]);
    } else {
      AlongIsLost(names[1..], k - 1);
    }
  }

  lemma LenientIsNoIndex(token: string)
    requires Lenient(token)
    ensures StandardIndex(token) == None && Index(token).Some?
  {
  }

  /** For every other reference, a document in which the code and the standard part ways. */
  lemma LooseDiffers(ref: string) returns (root: Json)
    requires !Strict(ref)
    ensures Target(root, ref) != StandardTarget(root, ref)
  {
    var tokens := Tokens(ref);
    var names := UnescapeAll(tokens);
    if t :| t in tokens && !WellFormed(t) {
      root := Along(names, |names|);
      AlongIsFound(names, |names|);
    } else {
      var t :| t in tokens && Lenient(Unescape(t));
      var k :| 0 <= k < |tokens| && tokens[k] == t;
      LenientIsNoIndex(names[k]);
      root := Along(names, k);
      AlongIsFound(names, k);
      AlongIsLost(names, k);
      SplitHasNoSlash(ref[2..]);
      forall i | 0 <= i < |tokens| ensures names[i] == DecodeAll(tokens)[i] {
        assert tokens[i] in tokens;
        UnescapeDecodes(tokens[i]);
      }
      assert names == DecodeAll(tokens);
    }
  }

  /** The code resolves a reference as the standard does, in every document, exactly when it is strict. */
  lemma ReferenceExact(ref: string)
    ensures Strict(ref) <==> forall root :: Target(root, ref) == StandardTarget(root, ref)
  {
    if Strict(ref) {
      forall root ensures Target(root, ref) == StandardTarget(root, ref) { StrictAgrees(root, ref); }
    } else {
      var root := LooseDiffers(ref);
    }
  }
}
