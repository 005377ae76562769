/** Rejecting JSON that repeats an object key (internal/integrations/genericwebhook/adapter.go). */
module DuplicateKeys {

  /** Section 4 of RFC 8259: an object is a list of members; names should be unique. */
  datatype Json = Scalar(text: string) | Str(text: string) | Array(items: seq<Json>) | Object(members: seq<Member>)

  datatype Member = Member(name: string, value: Json)

  /** What a streaming decoder hands out; commas and colons are its own. */
  datatype Token =
    | OpenBrace | CloseBrace | OpenBracket | CloseBracket
    | StrToken(text: string) | ScalarToken(text: string)

  predicate Closing(t: Token) {
    t == CloseBrace || t == CloseBracket
  }

  // --- the reference ---------------------------------------------------------------------------

  function Tokens(v: Json): (ts: seq<Token>)
    ensures |ts| >= 1 && !Closing(ts[0])
    decreases v, 1
  {
    match v
    case Scalar(text) => [ScalarToken(text)]
    case Str(text) => [StrToken(text)]
    case Array(items) => [OpenBracket] + ItemTokens(items) + [CloseBracket]
    case Object(members) => [OpenBrace] + MemberTokens(members) + [CloseBrace]
  }

  function ItemTokens(items: seq<Json>): seq<Token>
    decreases items, 0
  {
    if items == [] then [] else Tokens(items[0]) + ItemTokens(items[1..])
  }

  function MemberTokens(members: seq<Member>): seq<Token>
    decreases members, 0
  {
    if members == [] then []
    else [StrToken(members[0].name)] + Tokens(members[0].value) + MemberTokens(members[1..])
  }

  predicate DistinctNames(members: seq<Member>) {
    forall i, j :: 0 <= i < j < |members| ==> members[i].name != members[j].name
  }

  /** No object at any depth repeats a key. */
  predicate Unique(v: Json) {
    match v
    case Scalar(_) => true
    case Str(_) => true
    case Array(items) => forall i :: 0 <= i < |items| ==> Unique(items[i])
    case Object(members) => DistinctNames(members) && forall i :: 0 <= i < |members| ==> Unique(members[i].value)
  }

  // --- the scan, as a function of the tokens left ----------------------------------------------

  datatype Scan = Failed | Rest(tokens: seq<Token>)

  function ScanValue(ts: seq<Token>): (r: Scan)
    ensures r.Rest? ==> |r.tokens| < |ts|
    decreases |ts|, 1
  {
    if ts == [] then Failed
    else
      match ts[0]
      case ScalarToken(_) => Rest(ts[1..])
      case StrToken(_) => Rest(ts[1..])
      case OpenBrace => ScanMembers(ts[1..], {})
      case OpenBracket => ScanItems(ts[1..])
      case _ => Failed
  }

  function ScanItems(ts: seq<Token>): (r: Scan)
    ensures r.Rest? ==> |r.tokens| < |ts|
    decreases |ts|, 2
  {
    if ts == [] then Failed
    else if Closing(ts[0]) then (if ts[0] == CloseBracket then Rest(ts[1..]) else Failed)
    else
      match ScanValue(ts)
      case Failed => Failed
      case Rest(rest) => ScanItems(rest)
  }

  function ScanMembers(ts: seq<Token>, seen: set<string>): (r: Scan)
    ensures r.Rest? ==> |r.tokens| < |ts|
    decreases |ts|, 2
  {
    if ts == [] then Failed
    else if Closing(ts[0]) then (if ts[0] == CloseBrace then Rest(ts[1..]) else Failed)
    else if !ts[0].StrToken? || ts[0].text in seen then Failed
    else
      match ScanValue(ts[1..])
      case Failed => Failed
      case Rest(rest) => ScanMembers(rest, seen + {ts[0].text})
  }

  // --- scanning the tokens of a value ----------------------------------------------------------

  /** Of a value followed by anything, exactly the value is consumed, unless it repeats a key somewhere. */
  lemma {:induction false} ScanOfTokens(v: Json, rest: seq<Token>)
    ensures ScanValue(Tokens(v) + rest) == if Unique(v) then Rest(rest) else Failed
    decreases v, 1
  {
    var ts := Tokens(v) + rest;
    match v
    case Scalar(_) => assert ts[1..] == rest;
    case Str(_) => assert ts[1..] == rest;
    case Array(items) =>
      assert ts[1..] == ItemTokens(items) + ([CloseBracket] + rest);
      ScanOfItems(items, rest);
    case Object(members) =>
      assert ts[1..] == MemberTokens(members) + ([CloseBrace] + rest);
      ScanOfMembers(members, rest, {});
      assert DistinctNames(members) <==> DistinctFrom(members, {});
  }

  lemma {:induction false} ScanOfItems(items: seq<Json>, rest: seq<Token>)
    ensures ScanItems(ItemTokens(items) + ([CloseBracket] + rest))
            == if forall i :: 0 <= i < |items| ==> Unique(items[i]) then Rest(rest) else Failed
    decreases items, 0
  {
    var tail := [CloseBracket] + rest;
    if items == [] {
      assert ItemTokens(items) + tail == tail;
    } else {
      var more := ItemTokens(items[1..]) + tail;
      assert ItemTokens(items) + tail == Tokens(items[0]) + more;
      ScanOfTokens(items[0], more);
      ScanOfItems(items[1..], rest);
      assert items == [items[0]] + items[1..];
    }
  }

  predicate DistinctFrom(members: seq<Member>, seen: set<string>) {
    DistinctNames(members) && forall i :: 0 <= i < |members| ==> members[i].name !in seen
  }

  lemma {:induction false} DistinctFromStep(members: seq<Member>, seen: set<string>)
    requires members != []
    ensures DistinctFrom(members, seen) <==>
              members[0].name !in seen && DistinctFrom(members[1..], seen + {members[0].name})
  {
    assert members == [members[0]] + members[1..];
    assert forall i :: 0 < i < |members| ==> members[i] == members[1..][i - 1];
  }

  lemma {:induction false} ScanOfMembers(members: seq<Member>, rest: seq<Token>, seen: set<string>)
    ensures ScanMembers(MemberTokens(members) + ([CloseBrace] + rest), seen)
            == if DistinctFrom(members, seen) && forall i :: 0 <= i < |members| ==> Unique(members[i].value)
               then Rest(rest) else Failed
    decreases members, 0
  {
    var tail := [CloseBrace] + rest;
    var ts := MemberTokens(members) + tail;
    if members == [] {
      assert ts == tail;
    } else {
      var more := MemberTokens(members[1..]) + tail;
      assert ts[1..] == Tokens(members[0].value) + more;
      ScanOfTokens(members[0].value, more);
      ScanOfMembers(members[1..], rest, seen + {members[0].name});
      DistinctFromStep(members, seen);
      assert members == [members[0]] + members[1..];
    }
  }

  // --- what a passed scan has read -------------------------------------------------------------

  lemma {:induction false} Wrapped(ts: seq<Token>, first: Token, body: seq<Token>, last: Token, rest: seq<Token>)
    requires ts != [] && ts[0] == first && ts[1..] == body + ([last] + rest)
    ensures ts == ([first] + body + [last]) + rest
  {
    assert ts == [first] + ts[1..];
  }

  /** A scan passes over nothing but a whole value in which no object repeats a key. */
  lemma {:induction false} ScannedIsAValue(ts: seq<Token>) returns (v: Json)
    requires ScanValue(ts).Rest?
    ensures ts == Tokens(v) + ScanValue(ts).tokens && Unique(v)
    decreases |ts|, 1
  {
    var rest := ScanValue(ts).tokens;
    match ts[0]
    case ScalarToken(text) => v := Scalar(text);
    case StrToken(text) => v := Str(text);
    case OpenBracket =>
      var items := ScannedAreItems(ts[1..]);
      v := Array(items);
      Wrapped(ts, OpenBracket, ItemTokens(items), CloseBracket, rest);
    case OpenBrace =>
      var members := ScannedAreMembers(ts[1..], {});
      v := Object(members);
      Wrapped(ts, OpenBrace, MemberTokens(members), CloseBrace, rest);
  }

  lemma {:induction false} ScannedAreItems(ts: seq<Token>) returns (items: seq<Json>)
    requires ScanItems(ts).Rest?
    ensures ts == ItemTokens(items) + ([CloseBracket] + ScanItems(ts).tokens)
    ensures forall i :: 0 <= i < |items| ==> Unique(items[i])
    decreases |ts|, 2
  {
    if Closing(ts[0]) {
      items := [];
      assert ts == [ts[0]] + ts[1..];
    } else {
      var v := ScannedIsAValue(ts);
      var more := ScannedAreItems(ScanValue(ts).tokens);
      items := [v] + more;
      assert items[1..] == more;
    }
  }

  lemma {:induction false} MemberTokensStep(name: string, v: Json, more: seq<Member>, tail: seq<Token>)
    ensures MemberTokens([Member(name, v)] + more) + tail
            == [StrToken(name)] + (Tokens(v) + (MemberTokens(more) + tail))
  {
    assert ([Member(name, v)] + more)[1..] == more;
  }

  lemma {:induction false} ScannedAreMembers(ts: seq<Token>, seen: set<string>) returns (members: seq<Member>)
    requires ScanMembers(ts, seen).Rest?
    ensures ts == MemberTokens(members) + ([CloseBrace] + ScanMembers(ts, seen).tokens)
    ensures DistinctFrom(members, seen)
    ensures forall i :: 0 <= i < |members| ==> Unique(members[i].value)
    decreases |ts|, 2
  {
    if Closing(ts[0]) {
      members := [];
      assert ts == [ts[0]] + ts[1..];
    } else {
      var name := ts[0].text;
      var v := ScannedIsAValue(ts[1..]);
      var more := ScannedAreMembers(ScanValue(ts[1..]).tokens, seen + {name});
      var tail := [CloseBrace] + ScanMembers(ts, seen).tokens;
      members := [Member(name, v)] + more;
      assert members[1..] == more;
      assert ts == MemberTokens(members) + tail by {
        MemberTokensStep(name, v, more, tail);
        assert ts == [StrToken(name)] + ts[1..];
      }
      DistinctFromStep(members, seen);
    }
  }

  /** A payload is one value, the whole of it, and no object in it repeats a key. */
  ghost predicate Canonical(ts: seq<Token>) {
    exists v :: ts == Tokens(v) && Unique(v)
  }

  lemma {:induction false} CanonicalIsScanned(ts: seq<Token>)
    ensures Canonical(ts) <==> ScanValue(ts) == Rest([])
  {
    if Canonical(ts) {
      var v :| ts == Tokens(v) && Unique(v);
      ScanOfTokens(v, []);
      assert Tokens(v) + [] == ts;
    }
    if ScanValue(ts) == Rest([]) {
      var v := ScannedIsAValue(ts);
      assert ts == Tokens(v);
    }
  }

  /** So of a single value's tokens, acceptance is decided by the keys alone. */
  lemma {:induction false} ValueIsCanonical(v: Json)
    ensures Canonical(Tokens(v)) <==> Unique(v)
  {
    ScanOfTokens(v, []);
    assert Tokens(v) + [] == Tokens(v);
    CanonicalIsScanned(Tokens(v));
  }

  // --- the scan as the source runs it ----------------------------------------------------------

  class Decoder {
    var left: seq<Token>

    constructor (tokens: seq<Token>)
      ensures left == tokens
    {
      left := tokens;
    }

    /** False at the end of the stream, where the source gets an error. */
    method Next() returns (ok: bool, token: Token)
      modifies this
      ensures ok <==> old(left) != []
      ensures ok ==> [token] + left == old(left)
      ensures !ok ==> left == old(left)
    {
      if left == [] {
        return false, CloseBrace;
      }
      ok, token := true, left[0];
      left := left[1..];
    }

    method More() returns (more: bool)
      ensures more <==> left != [] && !Closing(left[0])
    {
      more := left != [] && !Closing(left[0]);
    }
  }

  method ScanClosing(decoder: Decoder, want: Token) returns (ok: bool)
    modifies decoder
    ensures ok <==> old(decoder.left) != [] && old(decoder.left)[0] == want
    ensures ok ==> decoder.left == old(decoder.left)[1..]
  {
    var closing;
    ok, closing := decoder.Next();
    ok := ok && closing == want;
  }

  method ScanJsonValue(decoder: Decoder) returns (ok: bool)
    modifies decoder
    ensures ok <==> ScanValue(old(decoder.left)).Rest?
    ensures ok ==> decoder.left == ScanValue(old(decoder.left)).tokens
    decreases |decoder.left|, 1
  {
    var token;
    ok, token := decoder.Next();
    if !ok {
      return;
    }
    assert decoder.left == old(decoder.left)[1..];
    match token
    case ScalarToken(_) =>
    case StrToken(_) =>
    case OpenBrace => ok := ScanObject(decoder);
    case OpenBracket => ok := ScanArray(decoder);
    case CloseBrace => ok := false;
    case CloseBracket => ok := false;
  }

  method ScanObject(decoder: Decoder) returns (ok: bool)
    modifies decoder
    ensures ok <==> ScanMembers(old(decoder.left), {}).Rest?
    ensures ok ==> decoder.left == ScanMembers(old(decoder.left), {}).tokens
    decreases |decoder.left|, 2
  {
    var seen: set<string> := {};
    var more := decoder.More();
    while more
      invariant |decoder.left| <= |old(decoder.left)|
      invariant more <==> decoder.left != [] && !Closing(decoder.left[0])
      invariant ScanMembers(old(decoder.left), {}) == ScanMembers(decoder.left, seen)
      decreases |decoder.left|
    {
      ghost var before := decoder.left;
      var named, key := decoder.Next();
      assert decoder.left == before[1..];
      if !key.StrToken? || key.text in seen {
        return false;
      }
      seen := seen + {key.text};
      ok := ScanJsonValue(decoder);
      if !ok {
        return;
      }
      more := decoder.More();
    }
    ok := ScanClosing(decoder, CloseBrace);
  }

  method ScanArray(decoder: Decoder) returns (ok: bool)
    modifies decoder
    ensures ok <==> ScanItems(old(decoder.left)).Rest?
    ensures ok ==> decoder.left == ScanItems(old(decoder.left)).tokens
    decreases |decoder.left|, 2
  {
    var more := decoder.More();
    while more
      invariant |decoder.left| <= |old(decoder.left)|
      invariant more <==> decoder.left != [] && !Closing(decoder.left[0])
      invariant ScanItems(old(decoder.left)) == ScanItems(decoder.left)
      decreases |decoder.left|
    {
      ok := ScanJsonValue(decoder);
      if !ok {
        return;
      }
      more := decoder.More();
    }
    ok := ScanClosing(decoder, CloseBracket);
  }

  /** Accepts exactly the canonical payloads. */
  method RejectDuplicateKeys(tokens: seq<Token>) returns (ok: bool)
    ensures ok <==> Canonical(tokens)
  {
    CanonicalIsScanned(tokens);
    var decoder := new Decoder(tokens);
    ok := ScanJsonValue(decoder);
    if ok {
      var trailing, token := decoder.Next();
      ok := !trailing;
    }
  }
}
