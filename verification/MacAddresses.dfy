/** bootstrap/cloud-init/dump_macs.py: MAC addresses for the networks of each VM. */
module MacAddresses {
  import opened Prelude

  const TWO_24 := 0x100_0000

  type Byte = x: int | 0 <= x < 256

  datatype Suffix = Suffix(b0: Byte, b1: Byte, b2: Byte)

  function Value(s: Suffix): (v: int)
    ensures 0 <= v < TWO_24
  {
    s.b0 * 65536 + s.b1 * 256 + s.b2
  }

  /** (v >> 16) & 0xFF, (v >> 8) & 0xFF, v & 0xFF. */
  function Split(v: nat): Suffix {
    Suffix(v / 65536 % 256, v / 256 % 256, v % 256)
  }

  lemma {:induction false} BytesOf(v: int, b0: Byte, b1: Byte, b2: Byte)
    requires v == b0 * 65536 + b1 * 256 + b2
    ensures b0 == v / 65536 && b1 == v / 256 - 256 * (v / 65536) && b2 == v - 256 * (v / 256)
  {
  }

  lemma {:induction false} JoinOfSplit(v: nat)
    ensures Value(Split(v)) == v <==> v < TWO_24
  {
    assert v == v % 256 + 256 * (v / 256);
    assert v / 65536 == v / 256 / 256;
    assert v / 256 == v / 256 % 256 + 256 * (v / 65536);
  }

  lemma {:induction false} SplitOfJoin(s: Suffix)
    ensures Split(Value(s)) == s
  {
    BytesOf(Value(s), s.b0, s.b1, s.b2);
  }

  /** Joining bytes and splitting them again are inverse, on the 24-bit values. */
  lemma {:induction false} SplitInvertsValue(s: Suffix, v: nat)
    ensures Split(Value(s)) == s
    ensures Value(Split(v)) == v <==> v < TWO_24
  {
    SplitOfJoin(s);
    JoinOfSplit(v);
  }

  /** increment_mac_suffix: the mask keeps the low 24 bits. */
  function Increment(s: Suffix): Suffix {
    Split((Value(s) + 1) % TWO_24)
  }

  function HexDigit(d: int): (c: char)
    requires 0 <= d < 16
  {
    if d < 10 then (d + '0' as int) as char else (d - 10 + 'a' as int) as char
  }

  /** :02x */
  function Hex2(b: Byte): (s: string)
    ensures |s| == 2
  {
    [HexDigit(b / 16), HexDigit(b % 16)]
  }

  lemma {:induction false} HexDigitInjective(a: int, b: int)
    requires 0 <= a < 16 && 0 <= b < 16 && HexDigit(a) == HexDigit(b)
    ensures a == b
  {
  }

  lemma {:induction false} Hex2Injective(a: Byte, b: Byte)
    requires Hex2(a) == Hex2(b)
    ensures a == b
  {
    assert Hex2(a)[0] == Hex2(b)[0] && Hex2(a)[1] == Hex2(b)[1];
    HexDigitInjective(a / 16, b / 16);
    HexDigitInjective(a % 16, b % 16);
  }

  const PREFIX := "52:54:00:"

  /** mac_suffix_to_string. */
  function Format(s: Suffix): (mac: string)
    ensures |mac| == 17
  {
    PREFIX + Hex2(s.b0) + ":" + Hex2(s.b1) + ":" + Hex2(s.b2)
  }

  lemma {:induction false} FormatInjective(s: Suffix, t: Suffix)
    ensures Format(s) == Format(t) <==> s == t
  {
    if Format(s) == Format(t) {
      assert Format(s)[9..11] == Hex2(s.b0) && Format(t)[9..11] == Hex2(t.b0);
      assert Format(s)[12..14] == Hex2(s.b1) && Format(t)[12..14] == Hex2(t.b1);
      assert Format(s)[15..17] == Hex2(s.b2) && Format(t)[15..17] == Hex2(t.b2);
      Hex2Injective(s.b0, t.b0);
      Hex2Injective(s.b1, t.b1);
      Hex2Injective(s.b2, t.b2);
    }
  }

  const HEX := "0123456789abcdef"

  lemma {:induction false} DigitInPlace(d: int)
    requires 0 <= d < 16
    ensures HexDigit(d) == HEX[d]
  {
  }

  /** The address, letter by letter: the prefix, and two digits a byte, the highest byte first. */
  lemma {:induction false} FormatExactly(s: Suffix)
    ensures
      var mac := Format(s);
      && |mac| == 17 && mac[..9] == "52:54:00:"
      && mac[9] == HEX[s.b0 / 16] && mac[10] == HEX[s.b0 % 16] && mac[11] == ':'
      && mac[12] == HEX[s.b1 / 16] && mac[13] == HEX[s.b1 % 16] && mac[14] == ':'
      && mac[15] == HEX[s.b2 / 16] && mac[16] == HEX[s.b2 % 16]
  {
    DigitInPlace(s.b0 / 16);
    DigitInPlace(s.b0 % 16);
    DigitInPlace(s.b1 / 16);
    DigitInPlace(s.b1 % 16);
    DigitInPlace(s.b2 / 16);
    DigitInPlace(s.b2 % 16);
  }

  /** A network is a dictionary of settings. */
  type Network = map<string, string>

  /** The suffix after `i` increments. */
  function SuffixAt(base: Suffix, i: nat): Suffix {
    if i == 0 then base else Increment(SuffixAt(base, i - 1))
  }

  /** The address of the `i`-th network of a VM whose name hashes to `base`. */
  function MacAt(base: Suffix, i: nat): string {
    Format(SuffixAt(base, i))
  }

  function Assigned(base: Suffix, networks: seq<Network>): (out: seq<Network>)
    ensures |out| == |networks|
    ensures forall i | 0 <= i < |networks| :: out[i] == networks[i]["mac" := MacAt(base, i)]
  {
    seq(|networks|, i requires 0 <= i < |networks| => networks[i]["mac" := MacAt(base, i)])
  }

  lemma {:induction false} AssignedTwice(base: Suffix, networks: seq<Network>)
    ensures Assigned(base, Assigned(base, networks)) == Assigned(base, networks)
  {
    var once, twice := Assigned(base, networks), Assigned(base, Assigned(base, networks));
    forall i | 0 <= i < |networks| ensures twice[i] == once[i] {
      assert twice[i] == once[i]["mac" := MacAt(base, i)];
    }
  }

  /** Repeated increments count modulo 2^24, through ff:ff:ff and on from zero: the i-th network
      gets the name's hash plus i. */
  lemma {:induction false} SuffixCounts(base: Suffix, i: nat)
    ensures Value(SuffixAt(base, i)) == (Value(base) + i) % TWO_24
  {
    if i > 0 {
      SuffixCounts(base, i - 1);
      AddInside(Value(base) + i - 1);
      SplitInvertsValue(base, (Value(SuffixAt(base, i - 1)) + 1) % TWO_24);
    }
  }

  /** The three bytes of the i-th network's suffix, as the bytes of one number. */
  lemma {:induction false} BytesExactly(base: Suffix, i: nat)
    ensures
      var v := (base.b0 * 65536 + base.b1 * 256 + base.b2 + i) % 0x100_0000;
      var s := SuffixAt(base, i);
      s.b0 == v / 65536 && s.b1 == v / 256 % 256 && s.b2 == v % 256
  {
    SuffixCounts(base, i);
    var s := SuffixAt(base, i);
    BytesOf(Value(s), s.b0, s.b1, s.b2);
    MiddleByte(Value(s), s.b1, s.b2);
  }

  lemma {:induction false} MiddleByte(v: int, b1: Byte, b2: Byte)
    requires 0 <= v && b1 == v / 256 - 256 * (v / 65536) && b2 == v - 256 * (v / 256)
    ensures b1 == v / 256 % 256 && b2 == v % 256
  {
    assert v / 256 == 256 * (v / 65536) + b1;
  }

  lemma {:induction false} AddInside(x: nat)
    ensures (x % TWO_24 + 1) % TWO_24 == (x + 1) % TWO_24
  {
  }

  lemma {:induction false} SameResidue(v: int, i: int, j: int)
    ensures (v + i) % TWO_24 == (v + j) % TWO_24 <==> (i - j) % TWO_24 == 0
  {
    var x, y, d := v + i, v + j, i - j;
    assert x == x / TWO_24 * TWO_24 + x % TWO_24;
    assert y == y / TWO_24 * TWO_24 + y % TWO_24;
    assert d == d / TWO_24 * TWO_24 + d % TWO_24;
  }

  lemma {:induction false} SmallDifference(i: nat, j: nat)
    requires i != j && i < TWO_24 && j < TWO_24
    ensures (i - j) % TWO_24 != 0
  {
  }

  lemma {:induction false} ValueInjective(s: Suffix, t: Suffix)
    ensures Value(s) == Value(t) <==> s == t
  {
    BytesOf(Value(s), s.b0, s.b1, s.b2);
    BytesOf(Value(t), t.b0, t.b1, t.b2);
  }

  /** Two networks of one VM share an address exactly when their positions differ by a multiple
      of 2^24: never, below that many networks. */
  lemma {:induction false} MacsDistinctExactly(base: Suffix, i: nat, j: nat)
    ensures MacAt(base, i) == MacAt(base, j) <==> (i - j) % TWO_24 == 0
    ensures i != j && i < TWO_24 && j < TWO_24 ==> MacAt(base, i) != MacAt(base, j)
  {
    SuffixCounts(base, i);
    SuffixCounts(base, j);
    ValueInjective(SuffixAt(base, i), SuffixAt(base, j));
    FormatInjective(SuffixAt(base, i), SuffixAt(base, j));
    SameResidue(Value(base), i, j);
    if i != j && i < TWO_24 && j < TWO_24 { SmallDifference(i, j); }
  }

  class Vm {
    const name: string
    var networks: seq<Network>

    constructor (name: string, networks: seq<Network>)
      ensures this.name == name && this.networks == networks
    {
      this.name, this.networks := name, networks;
    }

    /** The loop over one VM's networks, which rewrites each dictionary in turn. */
    method AssignMacs(base: Suffix)
      modifies this`networks
      ensures networks == Assigned(base, old(networks))
    {
      var suffix := base;
      for i := 0 to |networks|
        invariant |networks| == |old(networks)|
        invariant suffix == SuffixAt(base, if i == 0 then 0 else i - 1)
        invariant forall k | 0 <= k < i :: networks[k] == old(networks)[k]["mac" := MacAt(base, k)]
        invariant forall k | i <= k < |networks| :: networks[k] == old(networks)[k]
      {
        if i > 0 {
          suffix := Increment(suffix);
        }
        networks := networks[i := networks[i]["mac" := Format(suffix)]];
      }
    }
  }

  /** process_vm_configs; `hash` stands for the first 24 bits of the name's SHA-256. A VM listed
      twice is assigned the same addresses again. */
  method ProcessVmConfigs(vms: seq<Vm>, hash: string -> Suffix)
    modifies vms
    ensures forall vm | vm in vms :: vm.networks == Assigned(hash(vm.name), old(vm.networks))
  {
    for i := 0 to |vms|
      invariant forall vm | vm in vms[..i] :: vm.networks == Assigned(hash(vm.name), old(vm.networks))
      invariant forall vm | vm in vms && vm !in vms[..i] :: vm.networks == old(vm.networks)
    {
      var vm := vms[i];
      AssignedTwice(hash(vm.name), old(vm.networks));
      if vm.networks != [] {
        vm.AssignMacs(hash(vm.name));
      }
    }
  }
}
