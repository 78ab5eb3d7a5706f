/** The helpers of lib/utils.js: GUID text, object extension and the
    request-to-promise bridge. */
module Utils {
  import opened Js
  import opened Q
  import opened IndexedDB

  // ---------------------------------------------------------------------------
  // Hexadecimal text

  predicate IsHexDigit(c: char) {
    '0' <= c <= '9' || 'a' <= c <= 'f'
  }

  predicate AllHex(s: string) {
    forall i | 0 <= i < |s| :: IsHexDigit(s[i])
  }

  function DigitValue(c: char): (d: nat)
    requires IsHexDigit(c)
    ensures d < 16
  {
    if c <= '9' then c as int - '0' as int else c as int - 'a' as int + 10
  }

  /** The lowercase digit that `toString(16)` writes for `d`. */
  function HexDigit(d: nat): (c: char)
    requires d < 16
    ensures IsHexDigit(c) && DigitValue(c) == d
  {
    if d < 10 then ('0' as int + d) as char else ('a' as int + d - 10) as char
  }

  /** `n.toString(16)` for a non-negative integer: lowercase, no leading zeros. */
  function ToHex(n: nat): string
    decreases n
  {
    if n < 16 then [HexDigit(n)] else ToHex(n / 16) + [HexDigit(n % 16)]
  }

  /** The number a string of hexadecimal digits denotes. */
  function HexValue(s: string): nat
    requires AllHex(s)
  {
    if s == [] then 0 else HexValue(s[..|s| - 1]) * 16 + DigitValue(s[|s| - 1])
  }

  // ---------------------------------------------------------------------------
  // S4 and guid

  /** The random 16-bit word `S4` formats: `((1 + Math.random()) * 0x10000) | 0`
      is `0x10000 + n` for such an `n`. */
  type Word16 = n: nat | n < 0x10000

  /** `toString(16)` of `0x10000 + n` is a `1` followed by the four digits of `n`. */
  lemma ToHexOfOffsetWord(n: Word16)
    ensures ToHex(0x10000 + n)
         == ['1', HexDigit(n / 16 / 16 / 16), HexDigit(n / 16 / 16 % 16), HexDigit(n / 16 % 16), HexDigit(n % 16)]
  {
    var m := 0x10000 + n;
    var m1, m2, m3 := m / 16, m / 16 / 16, m / 16 / 16 / 16;
    assert m % 16 == n % 16 && m1 == 0x1000 + n / 16;
    assert m1 % 16 == n / 16 % 16 && m2 == 0x100 + n / 16 / 16;
    assert m2 % 16 == n / 16 / 16 % 16 && m3 == 0x10 + n / 16 / 16 / 16;
    assert m3 % 16 == n / 16 / 16 / 16 && m3 / 16 == 1;
    calc {
      ToHex(m);
      ToHex(m1) + [HexDigit(n % 16)];
      ToHex(m2) + [HexDigit(n / 16 % 16)] + [HexDigit(n % 16)];
      ToHex(m3) + [HexDigit(n / 16 / 16 % 16)] + [HexDigit(n / 16 % 16)] + [HexDigit(n % 16)];
      ToHex(1) + [HexDigit(n / 16 / 16 / 16)] + [HexDigit(n / 16 / 16 % 16)] + [HexDigit(n / 16 % 16)] + [HexDigit(n % 16)];
    }
  }

  /** `S4`: the last four characters of `(0x10000 + n).toString(16)`, which are
      exactly four lowercase hex digits denoting `n`, zero-padded. */
  function S4(n: Word16): (r: string)
    ensures |r| == 4 && AllHex(r)
    ensures HexValue(r) == n
  {
    ToHexOfOffsetWord(n);
    var r := ToHex(0x10000 + n)[1..];
    var q1 := n / 16;
    var q2 := q1 / 16;
    var q3 := q2 / 16;
    assert r == [HexDigit(q3), HexDigit(q2 % 16), HexDigit(q1 % 16), HexDigit(n % 16)];
    assert r[..3][..2][..1] == [HexDigit(q3)];
    assert r[..3][..2] == [HexDigit(q3), HexDigit(q2 % 16)];
    assert r[..3] == [HexDigit(q3), HexDigit(q2 % 16), HexDigit(q1 % 16)];
    assert HexValue(r[..3][..2][..1]) == q3;
    assert HexValue(r[..3][..2]) == q2;
    assert HexValue(r[..3]) == q1;
    r
  }

  /** The positions of the dashes in the 8-4-4-4-12 shape. */
  predicate IsDashPosition(i: int) {
    i == 8 || i == 13 || i == 18 || i == 23
  }

  /** `Utils.guid()`, given the eight words its eight `S4()` calls draw, in call order. */
  function Guid(words: seq<Word16>): (g: string)
    requires |words| == 8
    ensures |g| == 36
    ensures forall i | 0 <= i < 36 :: g[i] == '-' <==> IsDashPosition(i)
    ensures forall i | 0 <= i < 36 && !IsDashPosition(i) :: IsHexDigit(g[i])
  {
    var g := S4(words[0]) + S4(words[1]) + "-" + S4(words[2]) + "-" + S4(words[3]) + "-"
           + S4(words[4]) + "-" + S4(words[5]) + S4(words[6]) + S4(words[7]);
    GuidShape(words, g);
    g
  }

  lemma GuidShape(words: seq<Word16>, g: string)
    requires |words| == 8
    requires g == S4(words[0]) + S4(words[1]) + "-" + S4(words[2]) + "-" + S4(words[3]) + "-"
                + S4(words[4]) + "-" + S4(words[5]) + S4(words[6]) + S4(words[7])
    ensures |g| == 36
    ensures forall i | 0 <= i < 36 :: g[i] == '-' <==> IsDashPosition(i)
    ensures forall i | 0 <= i < 36 && !IsDashPosition(i) :: IsHexDigit(g[i])
  {
    var a, b, c, d := S4(words[0]) + S4(words[1]), S4(words[2]), S4(words[3]), S4(words[4]);
    var e := S4(words[5]) + S4(words[6]) + S4(words[7]);
    assert AllHex(a) && AllHex(e);
    assert g == a + "-" + b + "-" + c + "-" + d + "-" + e;
    forall i | 0 <= i < 36
      ensures g[i] == '-' <==> IsDashPosition(i)
      ensures !IsDashPosition(i) ==> IsHexDigit(g[i])
    {
      if i < 8 { assert g[i] == a[i]; }
      else if 8 < i < 13 { assert g[i] == b[i - 9]; }
      else if 13 < i < 18 { assert g[i] == c[i - 14]; }
      else if 18 < i < 23 { assert g[i] == d[i - 19]; }
      else if 23 < i { assert g[i] == e[i - 24]; }
    }
  }

  /** The text with every dash removed. */
  function RemoveDashes(s: string): (r: string)
    ensures |r| <= |s|
  {
    if s == [] then [] else (if s[0] == '-' then [] else [s[0]]) + RemoveDashes(s[1..])
  }

  lemma {:induction false} RemoveDashesAppend(s: string, t: string)
    ensures RemoveDashes(s + t) == RemoveDashes(s) + RemoveDashes(t)
  {
    if s != [] {
      assert (s + t)[0] == s[0];
      assert (s + t)[1..] == s[1..] + t;
      RemoveDashesAppend(s[1..], t);
      var head := if s[0] == '-' then [] else [s[0]];
      calc {
        RemoveDashes(s + t);
        head + RemoveDashes(s[1..] + t);
        head + (RemoveDashes(s[1..]) + RemoveDashes(t));
        (head + RemoveDashes(s[1..])) + RemoveDashes(t);
      }
    } else {
      assert s + t == t;
    }
  }

  lemma {:induction false} RemoveDashesOfHex(s: string)
    requires AllHex(s)
    ensures RemoveDashes(s) == s
  {
    if s != [] {
      RemoveDashesOfHex(s[1..]);
    }
  }

  /** The `S4` texts of the words, concatenated in order. */
  function Joined(words: seq<Word16>): (s: string)
    ensures |s| == 4 * |words| && AllHex(s)
  {
    if words == [] then [] else S4(words[0]) + Joined(words[1..])
  }

  lemma JoinedCons(words: seq<Word16>, k: nat)
    requires k < |words|
    ensures Joined(words[k..]) == S4(words[k]) + Joined(words[k + 1..])
  {
    assert words[k..][1..] == words[k + 1..];
  }

  lemma JoinedEight(words: seq<Word16>)
    requires |words| == 8
    ensures Joined(words) == S4(words[0]) + S4(words[1]) + S4(words[2]) + S4(words[3])
                           + S4(words[4]) + S4(words[5]) + S4(words[6]) + S4(words[7])
  {
    assert words[0..] == words;
    JoinedCons(words, 0);
    JoinedCons(words, 1);
    JoinedCons(words, 2);
    JoinedCons(words, 3);
    JoinedCons(words, 4);
    JoinedCons(words, 5);
    JoinedCons(words, 6);
    JoinedCons(words, 7);
  }

  /** Without its dashes, a GUID is the eight `S4` outputs in call order. */
  lemma GuidWithoutDashes(words: seq<Word16>)
    requires |words| == 8
    ensures RemoveDashes(Guid(words)) == Joined(words)
  {
    RemoveDashesOfGroups(S4(words[0]), S4(words[1]), S4(words[2]), S4(words[3]),
                         S4(words[4]), S4(words[5]), S4(words[6]), S4(words[7]));
    JoinedEight(words);
  }

  lemma RemoveDashesOfGroups(p0: string, p1: string, p2: string, p3: string,
                             p4: string, p5: string, p6: string, p7: string)
    requires AllHex(p0) && AllHex(p1) && AllHex(p2) && AllHex(p3)
    requires AllHex(p4) && AllHex(p5) && AllHex(p6) && AllHex(p7)
    ensures RemoveDashes(p0 + p1 + "-" + p2 + "-" + p3 + "-" + p4 + "-" + p5 + p6 + p7)
         == p0 + p1 + p2 + p3 + p4 + p5 + p6 + p7
  {
    var x1 := p0 + p1;
    RemoveDashesOfHex(x1);
    var x2 := AppendDash(x1, x1);
    var x3 := AppendHex(x2, x1, p2);
    var x4 := AppendDash(x3, x1 + p2);
    var x5 := AppendHex(x4, x1 + p2, p3);
    var x6 := AppendDash(x5, x1 + p2 + p3);
    var x7 := AppendHex(x6, x1 + p2 + p3, p4);
    var x8 := AppendDash(x7, x1 + p2 + p3 + p4);
    var x9 := AppendHex(x8, x1 + p2 + p3 + p4, p5);
    var x10 := AppendHex(x9, x1 + p2 + p3 + p4 + p5, p6);
    var x11 := AppendHex(x10, x1 + p2 + p3 + p4 + p5 + p6, p7);
  }

  /** Steps of the proof above: appending hex digits or a dash to a text whose
      dashes are removed to `acc`. */
  lemma AppendHex(x: string, acc: string, p: string) returns (y: string)
    requires RemoveDashes(x) == acc && AllHex(p)
    ensures y == x + p && RemoveDashes(y) == acc + p
  {
    y := x + p;
    RemoveDashesAppend(x, p);
    RemoveDashesOfHex(p);
  }

  lemma AppendDash(x: string, acc: string) returns (y: string)
    requires RemoveDashes(x) == acc
    ensures y == x + "-" && RemoveDashes(y) == acc
  {
    y := x + "-";
    RemoveDashesAppend(x, "-");
    assert RemoveDashes("-") == [];
  }

  /** The four hex digits of a GUID starting at `lo`, read as a word. */
  function GroupAt(g: string, lo: nat): (w: Word16)
    requires lo + 4 <= |g| && AllHex(g[lo..lo + 4])
  {
    HexValueBound(g[lo..lo + 4]);
    HexValue(g[lo..lo + 4])
  }

  lemma {:induction false} HexValueBound(s: string)
    requires AllHex(s) && |s| <= 4
    ensures HexValue(s) < Power16(|s|) && Power16(|s|) <= 0x10000
  {
    if s != [] {
      HexValueBound(s[..|s| - 1]);
    }
  }

  function Power16(k: nat): (p: nat)
    ensures p > 0
  {
    if k == 0 then 1 else 16 * Power16(k - 1)
  }

  lemma HexGroup(g: string, lo: nat)
    requires |g| == 36 && lo + 4 <= 36
    requires forall i | 0 <= i < 36 && !IsDashPosition(i) :: IsHexDigit(g[i])
    requires forall j | lo <= j < lo + 4 :: !IsDashPosition(j)
    ensures AllHex(g[lo..lo + 4])
  {
    var group := g[lo..lo + 4];
    forall j | 0 <= j < 4 ensures IsHexDigit(group[j]) {
      assert group[j] == g[lo + j];
    }
  }

  /** Parses a GUID back into the eight words its digit groups encode. */
  function ParseGuid(g: string): (words: seq<Word16>)
    requires |g| == 36
    requires forall i | 0 <= i < 36 && !IsDashPosition(i) :: IsHexDigit(g[i])
    ensures |words| == 8
  {
    HexGroup(g, 0); HexGroup(g, 4); HexGroup(g, 9); HexGroup(g, 14);
    HexGroup(g, 19); HexGroup(g, 24); HexGroup(g, 28); HexGroup(g, 32);
    [GroupAt(g, 0), GroupAt(g, 4), GroupAt(g, 9), GroupAt(g, 14),
     GroupAt(g, 19), GroupAt(g, 24), GroupAt(g, 28), GroupAt(g, 32)]
  }

  /** Parsing a GUID recovers the words it was drawn from. */
  lemma GuidRoundTrip(words: seq<Word16>)
    requires |words| == 8
    ensures ParseGuid(Guid(words)) == words
  {
    var g := Guid(words);
    var p0, p1, p2, p3 := S4(words[0]), S4(words[1]), S4(words[2]), S4(words[3]);
    var p4, p5, p6, p7 := S4(words[4]), S4(words[5]), S4(words[6]), S4(words[7]);
    var a, e := p0 + p1, p5 + p6 + p7;
    assert g == a + "-" + p2 + "-" + p3 + "-" + p4 + "-" + e;
    assert g[0..8] == a && g[9..13] == p2 && g[14..18] == p3 && g[19..23] == p4 && g[24..36] == e;
    assert g[0..4] == g[0..8][0..4] && g[4..8] == g[0..8][4..8];
    assert g[24..28] == g[24..36][0..4] && g[28..32] == g[24..36][4..8] && g[32..36] == g[24..36][8..12];
    GroupSlice(a, [], p0, p1);
    GroupSlice(a, p0, p1, []);
    GroupSlice(e, [], p5, p6 + p7);
    GroupSlice(e, p5, p6, p7);
    GroupSlice(e, p5 + p6, p7, []);
  }

  /** A part of a concatenation is the slice at its offset. */
  lemma GroupSlice(g: string, before: string, part: string, after: string)
    requires g == before + part + after
    ensures g[|before|..|before| + |part|] == part
  {
  }

  /** Distinct draws give distinct GUIDs. */
  lemma GuidInjective(u: seq<Word16>, v: seq<Word16>)
    requires |u| == 8 && |v| == 8
    ensures Guid(u) == Guid(v) ==> u == v
  {
    GuidRoundTrip(u);
    GuidRoundTrip(v);
  }

  // ---------------------------------------------------------------------------
  // extend

  type Props = map<string, Value>

  /** A plain object, as its own enumerable properties. */
  class JsObject {
    var props: Props

    constructor (props: Props)
      ensures this.props == props
    {
      this.props := props;
    }
  }

  /** An `extend` source: `None` is a falsy one, which `if (source)` skips;
      a truthy one is seen through the properties `for..in` enumerates. */
  type Source = Option<Props>

  predicate Defines(source: Source, key: string) {
    source.Some? && key in source.value
  }

  /** The properties of the target after the sources have been copied in, left to right. */
  function Extended(props: Props, sources: seq<Source>): Props
    decreases |sources|
  {
    if sources == [] then props
    else
      var before := Extended(props, sources[..|sources| - 1]);
      match sources[|sources| - 1]
      case None => before
      case Some(source) => before + source
  }

  /** `Utils.extend(obj, s1, ..., sk)`: copies every property of every truthy
      source into `obj`, in place and in argument order, and returns `obj`. */
  method Extend(obj: JsObject, sources: seq<Source>) returns (r: JsObject)
    modifies obj
    ensures r == obj
    ensures obj.props == Extended(old(obj.props), sources)
  {
    var i := 0;
    while i < |sources|
      invariant 0 <= i <= |sources|
      invariant obj.props == Extended(old(obj.props), sources[..i])
    {
      var source := sources[i];
      assert sources[..i + 1][..i] == sources[..i];
      if source.Some? {
        var pending := source.value.Keys;
        ghost var before := obj.props;
        while pending != {}
          invariant pending <= source.value.Keys
          invariant obj.props == before + map k | k in source.value.Keys - pending :: source.value[k]
          decreases pending
        {
          var prop :| prop in pending;
          obj.props := obj.props[prop := source.value[prop]];
          pending := pending - {prop};
        }
        assert source.value.Keys - pending == source.value.Keys;
        assert (map k | k in source.value.Keys :: source.value[k]) == source.value;
      }
      i := i + 1;
    }
    assert sources[..i] == sources;
    r := obj;
  }

  /** A property defined on a truthy source gets the value from the last such source. */
  lemma {:induction false} ExtendLastSourceWins(props: Props, sources: seq<Source>, key: string, i: nat)
    requires i < |sources| && Defines(sources[i], key)
    requires forall j | i < j < |sources| :: !Defines(sources[j], key)
    ensures key in Extended(props, sources)
    ensures Extended(props, sources)[key] == sources[i].value[key]
  {
    var n := |sources| - 1;
    var front := sources[..n];
    if i < n {
      assert forall j | i < j < |front| :: front[j] == sources[j];
      ExtendLastSourceWins(props, front, key, i);
    }
  }

  /** A property no truthy source defines keeps its presence and value. */
  lemma {:induction false} ExtendKeepsUndefined(props: Props, sources: seq<Source>, key: string)
    requires forall j | 0 <= j < |sources| :: !Defines(sources[j], key)
    ensures key in Extended(props, sources) <==> key in props
    ensures key in props ==> Extended(props, sources)[key] == props[key]
  {
    if sources != [] {
      var front := sources[..|sources| - 1];
      assert forall j | 0 <= j < |front| :: front[j] == sources[j];
      ExtendKeepsUndefined(props, front, key);
    }
  }

  /** The target ends up with its own properties and those of the truthy sources, no others. */
  lemma {:induction false} ExtendKeys(props: Props, sources: seq<Source>)
    ensures forall key :: key in Extended(props, sources)
                          <==> key in props || exists j | 0 <= j < |sources| :: Defines(sources[j], key)
  {
    if sources != [] {
      var n := |sources| - 1;
      var front := sources[..n];
      ExtendKeys(props, front);
      forall key ensures key in Extended(props, sources)
                         <==> key in props || exists j | 0 <= j < |sources| :: Defines(sources[j], key)
      {
        if exists j | 0 <= j < |front| :: Defines(front[j], key) {
          var j :| 0 <= j < |front| && Defines(front[j], key);
          assert Defines(sources[j], key);
        }
        if exists j | 0 <= j < |sources| :: Defines(sources[j], key) {
          var j :| 0 <= j < |sources| && Defines(sources[j], key);
          if j < n {
            assert Defines(front[j], key);
          }
        }
      }
    }
  }

  /** A falsy source is skipped entirely: taking it out changes nothing. */
  lemma {:induction false} ExtendSkipsFalsy(props: Props, before: seq<Source>, after: seq<Source>)
    ensures Extended(props, before + [None] + after) == Extended(props, before + after)
    decreases |after|
  {
    if after == [] {
      assert before + [None] + after == before + [None];
      assert (before + [None])[..|before|] == before;
      assert before + after == before;
    } else {
      var n := |after| - 1;
      var s1 := before + [None] + after;
      var s2 := before + after;
      assert s1[..|s1| - 1] == before + [None] + after[..n];
      assert s2[..|s2| - 1] == before + after[..n];
      ExtendSkipsFalsy(props, before, after[..n]);
    }
  }

  // ---------------------------------------------------------------------------
  // toPromise

  /** The `options` object of `toPromise`, as its closures see it when an event
      fires: whether `options.success` and `options.error` are truthy then.
      A falsy `options` is `null`. */
  class CallerOptions {
    var success: bool
    var error: bool

    constructor (success: bool, error: bool)
      ensures this.success == success && this.error == error
    {
      this.success := success;
      this.error := error;
    }
  }

  /** The two closures `toPromise` installs, with what they capture. */
  datatype Bridge =
    | OnError(defer: Deferred, options: CallerOptions?)
    | OnSuccess(defer: Deferred, options: CallerOptions?)

  /** The closure hands the event to a caller-supplied handler instead of settling;
      `options` is read when the closure runs, not when it is installed. */
  predicate Overridden(h: Bridge)
    reads h.options
  {
    h.options != null && (if h.OnSuccess? then h.options.success else h.options.error)
  }

  /** A call of `options.success(evt, defer)` or `options.error(evt, defer)`. */
  datatype OverrideCall = OverrideCall(evt: Event, defer: Deferred)

  const ProtocolViolation: Value := Exception("Error", "Object must implement onerror and onsuccess methods")

  /** `Utils.toPromise(connection, options)`: throws, touching nothing, when either
      handler property is `undefined`; otherwise installs both closures over a
      fresh pending deferred and returns it. */
  method ToPromise<U>(connection: Request<U, Bridge>, options: CallerOptions?) returns (r: Completion<Deferred>)
    modifies connection
    ensures r.Throw? <==> old(connection.onerror) == UndefinedSlot || old(connection.onsuccess) == UndefinedSlot
    ensures r.Throw? ==> r.exception == ProtocolViolation
    ensures r.Throw? ==> connection.onerror == old(connection.onerror) && connection.onsuccess == old(connection.onsuccess)
    ensures r.Normal? ==> fresh(r.value) && r.value.state == Pending
    ensures r.Normal? ==> connection.onerror == Set(OnError(r.value, options))
    ensures r.Normal? ==> connection.onsuccess == Set(OnSuccess(r.value, options))
    ensures connection.onupgradeneeded == old(connection.onupgradeneeded)
  {
    var defer := new Deferred();
    if connection.onerror == UndefinedSlot || connection.onsuccess == UndefinedSlot {
      return Throw(ProtocolViolation);
    }
    connection.onerror := Set(OnError(defer, options));
    connection.onsuccess := Set(OnSuccess(defer, options));
    return Normal(defer);
  }

  /** Runs an installed closure on an event. With an override, the closure calls
      `options.success(evt, defer)` or `options.error(evt, defer)`; that code is
      the caller's, so its effect on the deferred, `effect`, is an input (`Pending`
      when it settles nothing), and `call` records what it was called with.
      Without one, it resolves with `evt.target.result` or rejects with
      `evt.target.error`. */
  method Invoke(h: Bridge, evt: Event, effect: Settlement) returns (call: Option<OverrideCall>)
    modifies h.defer
    ensures call.Some? <==> Overridden(h)
    ensures call.Some? ==> call.value == OverrideCall(evt, h.defer)
    ensures call.Some? ==> h.defer.state == Settle(old(h.defer.state), effect)
    ensures call.None? && h.OnSuccess? ==> h.defer.state == Settle(old(h.defer.state), Resolved(evt.target.result))
    ensures call.None? && h.OnError? ==> h.defer.state == Settle(old(h.defer.state), Rejected(evt.target.error))
  {
    if Overridden(h) {
      match effect {
        case Resolved(v) => h.defer.Resolve(v);
        case Rejected(e) => h.defer.Reject(e);
        case Pending =>
      }
      call := Some(OverrideCall(evt, h.defer));
    } else {
      call := None;
      match h
      case OnSuccess(defer, _) => defer.Resolve(evt.target.result);
      case OnError(defer, _) => defer.Reject(evt.target.error);
    }
  }

  /** The handler the engine calls for a signal: `onsuccess` or `onerror`. */
  function HandlerFor<U>(connection: Request<U, Bridge>, signal: Signal): Slot<Bridge>
    reads connection
  {
    if signal.Success? then connection.onsuccess else connection.onerror
  }

  function Captured(slot: Slot<Bridge>): set<object> {
    if slot.Set? then {slot.handler.defer} else {}
  }

  /** The engine delivering a signal: it calls the matching handler property
      when that holds a closure of this code. */
  method Deliver<U>(connection: Request<U, Bridge>, signal: Signal, effect: Settlement) returns (call: Option<OverrideCall>)
    modifies Captured(HandlerFor(connection, signal))
    ensures var slot := HandlerFor(connection, signal);
            if slot.Set? then
              && (call.Some? <==> Overridden(slot.handler))
              && (call.Some? ==>
                    call.value == OverrideCall(signal.evt, slot.handler.defer)
                    && slot.handler.defer.state == Settle(old(slot.handler.defer.state), effect))
              && (call.None? && slot.handler.OnSuccess? ==>
                    slot.handler.defer.state == Settle(old(slot.handler.defer.state), Resolved(signal.evt.target.result)))
              && (call.None? && slot.handler.OnError? ==>
                    slot.handler.defer.state == Settle(old(slot.handler.defer.state), Rejected(signal.evt.target.error)))
            else call.None?
  {
    var slot := HandlerFor(connection, signal);
    call := None;
    if slot.Set? {
      call := Invoke(slot.handler, signal.evt, effect);
    }
  }

  /** `toPromise` followed by the engine's first signal: with no override, a
      success resolves the returned deferred with `evt.target.result` and an
      error rejects it with `evt.target.error`; with one, the override is called
      with the event and that deferred, the default settle does not happen, and
      the deferred settles as the override settles it. */
  method ToPromiseThenDeliver<U>(connection: Request<U, Bridge>, options: CallerOptions?, signal: Signal, effect: Settlement)
    returns (r: Completion<Deferred>, call: Option<OverrideCall>)
    modifies connection
    ensures r.Throw? <==> old(connection.onerror) == UndefinedSlot || old(connection.onsuccess) == UndefinedSlot
    ensures r.Throw? ==> call.None?
    ensures r.Normal? ==> fresh(r.value)
    ensures r.Normal? ==> (call.Some? <==> Overridden(if signal.Success? then OnSuccess(r.value, options) else OnError(r.value, options)))
    ensures r.Normal? && call.Some? ==> call.value == OverrideCall(signal.evt, r.value) && r.value.state == effect
    ensures r.Normal? && call.None? && signal.Success? ==> r.value.state == Resolved(signal.evt.target.result)
    ensures r.Normal? && call.None? && signal.Error? ==> r.value.state == Rejected(signal.evt.target.error)
  {
    call := None;
    r := ToPromise(connection, options);
    if r.Normal? {
      call := Deliver(connection, signal, effect);
    }
  }
}
