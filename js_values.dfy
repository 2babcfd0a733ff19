/**
 * The JavaScript values the generated HTTP client (frontend/app/lib/client.ts) manipulates:
 * primitives, arrays, plain objects as ordered property lists, blobs and files, and the
 * browser's FormData accumulator. Object spread `{...a, ...b}` is `Assign(a, b)`.
 */
module JsValues {

  /** A JavaScript value. `Obj` lists its own enumerable properties in key order. */
  datatype JsValue =
    | Undefined
    | Null
    | Bool(b: bool)
    | Num(n: int)
    | Str(s: string)
    | Arr(items: seq<JsValue>)
    | Obj(props: seq<Prop>)
    | BlobVal(blobId: nat)
    | FileVal(fileId: nat)
    | FormRef(form: FormData)

  /** One property of an object. */
  datatype Prop = Prop(key: string, value: JsValue)

  /** What `FormData.append` stores: a blob or file as it is, anything else as text. */
  datatype FormEntryValue = FileEntry(file: JsValue) | TextEntry(text: string)

  /** One entry of a FormData. */
  datatype FormEntry = FormEntry(key: string, value: FormEntryValue)

  /** The browser's FormData: an ordered list of entries, several of which may share a key. */
  class FormData {
    var entries: seq<FormEntry>

    constructor ()
      ensures entries == []
    {
      entries := [];
    }

    /** `append(key, value)`: adds one entry at the end. */
    method Append(key: string, value: FormEntryValue)
      modifies this
      ensures entries == old(entries) + [FormEntry(key, value)]
    {
      entries := entries + [FormEntry(key, value)];
    }
  }

  /** JavaScript truthiness. */
  predicate Truthy(v: JsValue)
  {
    match v
    case Undefined => false
    case Null => false
    case Bool(b) => b
    case Num(n) => n != 0
    case Str(s) => s != ""
    case _ => true
  }

  /** `typeof v === "object" && v !== null`. */
  predicate IsObject(v: JsValue)
  {
    v.Arr? || v.Obj? || v.BlobVal? || v.FileVal? || v.FormRef?
  }

  /** The object has a property named `k`. */
  predicate Has(ps: seq<Prop>, k: string)
  {
    ps != [] && (ps[|ps| - 1].key == k || Has(ps[..|ps| - 1], k))
  }

  /** `o[k]`: the value of property `k`, `undefined` when there is none. */
  function Get(ps: seq<Prop>, k: string): (v: JsValue)
    ensures !Has(ps, k) ==> v == Undefined
  {
    if ps == [] then Undefined
    else if ps[|ps| - 1].key == k then ps[|ps| - 1].value
    else Get(ps[..|ps| - 1], k)
  }

  /** `Object.keys(o)`. */
  function Keys(ps: seq<Prop>): (ks: seq<string>)
    ensures |ks| == |ps|
    ensures forall i :: 0 <= i < |ps| ==> ks[i] == ps[i].key
  {
    seq(|ps|, i requires 0 <= i < |ps| => ps[i].key)
  }

  /** Overwrites every property named `k` in place. */
  function Replace(ps: seq<Prop>, k: string, v: JsValue): (r: seq<Prop>)
    ensures |r| == |ps|
    ensures Keys(r) == Keys(ps)
  {
    if ps == [] then []
    else
      var last := ps[|ps| - 1];
      Replace(ps[..|ps| - 1], k, v) + [if last.key == k then Prop(k, v) else last]
  }

  /** `o[k] = v`: an existing property keeps its place, a new one goes last. */
  function Put(ps: seq<Prop>, k: string, v: JsValue): seq<Prop>
  {
    if Has(ps, k) then Replace(ps, k, v) else ps + [Prop(k, v)]
  }

  /** `{...a, ...b}` on property lists: `b`'s properties assigned onto `a`, one by one. */
  function Assign(a: seq<Prop>, b: seq<Prop>): seq<Prop>
    decreases |b|
  {
    if b == [] then a
    else Assign(Put(a, b[0].key, b[0].value), b[1..])
  }

  /** The own enumerable properties `{...v}` copies: those of a plain object, none otherwise. */
  function Spread(v: JsValue): seq<Prop>
  {
    if v.Obj? then v.props else []
  }

  /** After overwriting `k`, reading `k` gives the new value and every other key is untouched. */
  lemma {:induction false} ReplaceGet(ps: seq<Prop>, k: string, v: JsValue, k': string)
    requires Has(ps, k)
    ensures Has(Replace(ps, k, v), k') == Has(ps, k')
    ensures Get(Replace(ps, k, v), k') == if k' == k then v else Get(ps, k')
  {
    var n := |ps|;
    var r := Replace(ps, k, v);
    var front := ps[..n - 1];
    assert r[..n - 1] == Replace(front, k, v);
    if ps[n - 1].key == k {
      ReplaceKeepsHas(front, k, v, k');
      if k' != k { ReplaceKeepsGetOther(front, k, v, k'); }
    } else {
      ReplaceGet(front, k, v, k');
    }
  }

  /** Overwriting keeps the set of keys. */
  lemma {:induction false} ReplaceKeepsHas(ps: seq<Prop>, k: string, v: JsValue, k': string)
    ensures Has(Replace(ps, k, v), k') == Has(ps, k')
  {
    if ps != [] {
      var n := |ps|;
      assert Replace(ps, k, v)[..n - 1] == Replace(ps[..n - 1], k, v);
      ReplaceKeepsHas(ps[..n - 1], k, v, k');
    }
  }

  /** Overwriting `k` leaves every other key's value alone. */
  lemma {:induction false} ReplaceKeepsGetOther(ps: seq<Prop>, k: string, v: JsValue, k': string)
    requires k' != k
    ensures Get(Replace(ps, k, v), k') == Get(ps, k')
  {
    if ps != [] {
      var n := |ps|;
      assert Replace(ps, k, v)[..n - 1] == Replace(ps[..n - 1], k, v);
      ReplaceKeepsGetOther(ps[..n - 1], k, v, k');
    }
  }

  /** `o[k] = v` then reading: `k` has the new value, every other key its old one. */
  lemma PutGet(ps: seq<Prop>, k: string, v: JsValue, k': string)
    ensures Has(Put(ps, k, v), k') == (k' == k || Has(ps, k'))
    ensures Get(Put(ps, k, v), k') == if k' == k then v else Get(ps, k')
  {
    if Has(ps, k) {
      ReplaceGet(ps, k, v, k');
    } else {
      var r := ps + [Prop(k, v)];
      assert r[..|r| - 1] == ps;
    }
  }

  /** Reading an object whose last property is `p`: `p`'s key gives `p`'s value, any other the rest's. */
  lemma SnocLookup(ps: seq<Prop>, p: Prop, k: string)
    ensures Has(ps + [p], k) == (p.key == k || Has(ps, k))
    ensures Get(ps + [p], k) == if p.key == k then p.value else Get(ps, k)
  {
    assert (ps + [p])[..|ps|] == ps;
  }

  /**
   * Spread precedence: in `{...a, ...b}` a key of `b` takes `b`'s value, any other key keeps
   * `a`'s; the result has exactly the keys of both.
   */
  lemma {:induction false} AssignGet(a: seq<Prop>, b: seq<Prop>, k: string)
    ensures Has(Assign(a, b), k) == (Has(a, k) || Has(b, k))
    ensures Get(Assign(a, b), k) == if Has(b, k) then Get(b, k) else Get(a, k)
    decreases |b|
  {
    if b != [] {
      AssignGet(Put(a, b[0].key, b[0].value), b[1..], k);
      PutGet(a, b[0].key, b[0].value, k);
      HasFront(b, k);
    }
  }

  /** `AssignGet` for every key at once. */
  lemma AssignPrecedence(a: seq<Prop>, b: seq<Prop>)
    ensures forall k :: Has(Assign(a, b), k) == (Has(a, k) || Has(b, k))
    ensures forall k :: Get(Assign(a, b), k) == if Has(b, k) then Get(b, k) else Get(a, k)
  {
    forall k
      ensures Has(Assign(a, b), k) == (Has(a, k) || Has(b, k))
      ensures Get(Assign(a, b), k) == if Has(b, k) then Get(b, k) else Get(a, k)
    {
      AssignGet(a, b, k);
    }
  }

  /** `PutGet` for every key at once. */
  lemma PutPrecedence(ps: seq<Prop>, k: string, v: JsValue)
    ensures forall k' :: Has(Put(ps, k, v), k') == (k' == k || Has(ps, k'))
    ensures forall k' :: Get(Put(ps, k, v), k') == if k' == k then v else Get(ps, k')
  {
    forall k'
      ensures Has(Put(ps, k, v), k') == (k' == k || Has(ps, k'))
      ensures Get(Put(ps, k, v), k') == if k' == k then v else Get(ps, k')
    {
      PutGet(ps, k, v, k');
    }
  }

  /** Splitting off the first property: `k` is in `b` iff it is the first key or in the rest, and the rest wins. */
  lemma {:induction false} HasFront(b: seq<Prop>, k: string)
    requires b != []
    ensures Has(b, k) == (b[0].key == k || Has(b[1..], k))
    ensures Get(b, k) == if Has(b[1..], k) then Get(b[1..], k) else if b[0].key == k then b[0].value else Undefined
    decreases |b|
  {
    var n := |b|;
    if n > 1 {
      assert b[..n - 1][1..] == b[1..][..n - 2];
      assert b[1..][n - 2] == b[n - 1];
      HasFront(b[..n - 1], k);
    } else {
      assert b[..n - 1] == [];
      assert b[1..] == [];
    }
  }

  /** The decimal digit character for `d`. */
  function DigitChar(d: nat): char
    requires d < 10
  {
    "0123456789"[d]
  }

  /** The decimal value of a digit character. */
  function DigitValue(c: char): nat
  {
    if '0' <= c <= '9' then (c as int - '0' as int) as nat else 0
  }

  /** `String(n)` for a non-negative integer: its decimal digits, no leading zero. */
  function NatToString(n: nat): (s: string)
    ensures |s| >= 1
    ensures forall i :: 0 <= i < |s| ==> '0' <= s[i] <= '9'
    ensures |s| > 1 ==> s[0] != '0'
  {
    if n < 10 then [DigitChar(n)] else NatToString(n / 10) + [DigitChar(n % 10)]
  }

  /** `String(n)` / `${n}` for an integer. */
  function IntToString(n: int): (s: string)
    ensures |s| >= 1
    ensures (s[0] == '-') == (n < 0)
  {
    if n < 0 then "-" + NatToString(-n) else NatToString(n)
  }

  /** Reads a string of decimal digits back as a number. */
  function DecimalValue(s: string): nat
  {
    if s == [] then 0 else 10 * DecimalValue(s[..|s| - 1]) + DigitValue(s[|s| - 1])
  }

  /** Rendering then reading back gives the number: the rendering loses nothing. */
  lemma {:induction false} NatToStringRoundTrip(n: nat)
    ensures DecimalValue(NatToString(n)) == n
  {
    if n >= 10 {
      var s := NatToString(n);
      assert s[..|s| - 1] == NatToString(n / 10);
      NatToStringRoundTrip(n / 10);
    }
  }

  /** Distinct non-negative numbers render as distinct digit strings. */
  lemma NatToStringInjective(a: nat, b: nat)
    requires NatToString(a) == NatToString(b)
    ensures a == b
  {
    NatToStringRoundTrip(a);
    NatToStringRoundTrip(b);
  }

  /** Distinct numbers render as distinct strings. */
  lemma IntToStringInjective(m: int, n: int)
    requires IntToString(m) == IntToString(n)
    ensures m == n
  {
    assert IntToString(m)[0] == IntToString(n)[0];
    if m < 0 {
      var a, b := NatToString(-m), NatToString(-n);
      assert ("-" + a)[1..] == a;
      assert ("-" + b)[1..] == b;
      NatToStringInjective(-m, -n);
    } else {
      NatToStringInjective(m, n);
    }
  }
}
