/** Derivation paths and their text (daemon/src/address_manager.rs). The generator and the wire
    decoder both drop duplicate paths by comparing texts; the text determines the path. */
module Derivation {
  import opened Wrappers
  import opened Model

  function KeychainNumber(k: Keychain): U32 {
    match k case External => 0 case Internal => 1
  }

  /** The path parser refuses a child number in the hardened range. */
  function CalculateAddressPath(isMultisig: bool, w: WalletAddress): (r: Result<DerivationPath>)
    ensures r.Ok? <==> w.index < 0x8000_0000
    ensures r.Err? ==> r.error == Bip32Derivation
  {
    if w.index >= HARDENED then Err(Bip32Derivation)
    else if isMultisig then Ok([w.cosignerIndex, KeychainNumber(w.keychain), w.index])
    else Ok([KeychainNumber(w.keychain), w.index])
  }

  /** Without cosigners, addresses that differ only in cosigner index share a path. */
  lemma PathDeterminesAddress(isMultisig: bool, a: WalletAddress, b: WalletAddress)
    requires CalculateAddressPath(isMultisig, a).Ok?
    requires CalculateAddressPath(isMultisig, a) == CalculateAddressPath(isMultisig, b)
    ensures a.index == b.index && a.keychain == b.keychain
    ensures isMultisig ==> a == b
  {
    var s, t := CalculateAddressPath(isMultisig, a).value, CalculateAddressPath(isMultisig, b).value;
    assert s[|s| - 1] == a.index && t[|t| - 1] == b.index;
    assert s[|s| - 2] == KeychainNumber(a.keychain) && t[|t| - 2] == KeychainNumber(b.keychain);
    assert isMultisig ==> s[0] == a.cosignerIndex && t[0] == b.cosignerIndex;
  }

  /* ----- text ----- */

  function Digit(d: nat): char
    requires d < 10
  {
    '0' + d as char
  }

  function Decimal(n: nat): (s: string)
    ensures s != [] && forall c :: c in s ==> '0' <= c <= '9'
  {
    if n < 10 then [Digit(n)] else Decimal(n / 10) + [Digit(n % 10)]
  }

  lemma {:induction false} DecimalInjective(a: nat, b: nat)
    requires Decimal(a) == Decimal(b)
    ensures a == b
  {
    var s, t := Decimal(a), Decimal(b);
    assert s[|s| - 1] == Digit(a % 10) && t[|t| - 1] == Digit(b % 10);
    if a >= 10 && b >= 10 {
      assert s[..|s| - 1] == Decimal(a / 10) && t[..|t| - 1] == Decimal(b / 10);
      DecimalInjective(a / 10, b / 10);
    }
  }

  function ChildText(c: U32): (s: string)
    ensures forall x :: x in s ==> x != '/'
  {
    if c < HARDENED then Decimal(c) else Decimal(c - HARDENED) + "'"
  }

  lemma ChildTextInjective(a: U32, b: U32)
    requires ChildText(a) == ChildText(b)
    ensures a == b
  {
    var s, t := ChildText(a), ChildText(b);
    assert a < HARDENED <==> s[|s| - 1] != '\'';
    assert b < HARDENED <==> t[|t| - 1] != '\'';
    if a < HARDENED {
      DecimalInjective(a, b);
    } else {
      assert s[..|s| - 1] == Decimal(a - HARDENED) && t[..|t| - 1] == Decimal(b - HARDENED);
      DecimalInjective(a - HARDENED, b - HARDENED);
    }
  }

  function PathText(p: DerivationPath): string {
    if p == [] then "m" else PathText(p[..|p| - 1]) + "/" + ChildText(p[|p| - 1])
  }

  /** A path's text is what the source formats: the cosigner in a multisig wallet, then 0 or 1 for the
      keychain, then the index, all after the letter m. */
  lemma PathIsWritten(isMultisig: bool, w: WalletAddress)
    requires w.index < 0x8000_0000
    ensures
      var path := CalculateAddressPath(isMultisig, w);
      && path.Ok?
      && var cosigner, index := Decimal(w.cosignerIndex), Decimal(w.index);
         var keychain := if w.keychain == External then "0" else "1";
      PathText(path.value) ==
        if isMultisig then "m" + "/" + cosigner + "/" + keychain + "/" + index
        else "m" + "/" + keychain + "/" + index
  {
    hide Decimal, PathText;
    SmallNumbers();
    EmptyPath();
    var k := KeychainNumber(w.keychain);
    if isMultisig {
      var c := w.cosignerIndex;
      assert [] + [c] == [c] && [c] + [k] == [c, k] && [c, k] + [w.index] == [c, k, w.index];
      TextOfMore([], c);
      TextOfMore([c], k);
      TextOfMore([c, k], w.index);
    } else {
      assert [] + [k] == [k] && [k] + [w.index] == [k, w.index];
      TextOfMore([], k);
      TextOfMore([k], w.index);
    }
  }

  lemma EmptyPath()
    ensures PathText([]) == "m"
  {
  }

  lemma TextOfMore(p: DerivationPath, c: U32)
    ensures PathText(p + [c]) == PathText(p) + "/" + ChildText(c)
  {
    assert (p + [c])[..|p|] == p;
  }

  lemma SmallNumbers()
    ensures Decimal(0) == "0" && Decimal(1) == "1"
  {
  }

  /** The decimal digits of a number mean that number. */
  function Meaning(s: string): int {
    if s == [] then 0 else 10 * Meaning(s[..|s| - 1]) + (s[|s| - 1] as int - '0' as int)
  }

  lemma {:induction false} DecimalMeans(n: nat)
    ensures Meaning(Decimal(n)) == n
  {
    var s := Decimal(n);
    if n < 10 {
      assert s[..0] == [];
    } else {
      assert s[..|s| - 1] == Decimal(n / 10);
      DecimalMeans(n / 10);
    }
  }

  /** The last separator of a text splits it in one way only. */
  lemma LastSeparator(x: string, s: string, y: string, t: string)
    requires x + "/" + s == y + "/" + t
    requires '/' !in s && '/' !in t
    ensures x == y && s == t
  {
    var u := x + "/" + s;
    assert u[|x|] == '/' && u[|y|] == '/';
    assert forall i :: |x| < i < |u| ==> u[i] == s[i - |x| - 1];
    assert forall i :: |y| < i < |u| ==> u[i] == t[i - |y| - 1];
    assert |x| == |y|;
    assert u[..|x|] == x && u[..|y|] == y;
    assert u[|x| + 1..] == s && u[|y| + 1..] == t;
  }

  lemma PathTextSplits(p: DerivationPath)
    requires p != []
    ensures PathText(p) == PathText(p[..|p| - 1]) + "/" + ChildText(p[|p| - 1])
  {
  }

  lemma {:induction false} PathTextInjective(p: DerivationPath, q: DerivationPath)
    requires PathText(p) == PathText(q)
    ensures p == q
  {
    PathTextLength(p);
    PathTextLength(q);
    if p != [] {
      var x, c := p[..|p| - 1], p[|p| - 1];
      var y, d := q[..|q| - 1], q[|q| - 1];
      PathTextSplits(p);
      PathTextSplits(q);
      hide PathText, ChildText;
      SameLastChild(x, c, y, d);
      PathTextInjective(x, y);
      assert p == x + [c] && q == y + [d];
    }
  }

  lemma SameLastChild(x: DerivationPath, c: U32, y: DerivationPath, d: U32)
    requires PathText(x) + "/" + ChildText(c) == PathText(y) + "/" + ChildText(d)
    ensures PathText(x) == PathText(y) && c == d
  {
    LastSeparator(PathText(x), ChildText(c), PathText(y), ChildText(d));
    ChildTextInjective(c, d);
  }

  lemma {:induction false} PathTextLength(p: DerivationPath)
    ensures |PathText(p)| >= 1
    ensures p != [] ==> |PathText(p)| > 1
  {
    if p != [] {
      PathTextLength(p[..|p| - 1]);
    }
  }
}
