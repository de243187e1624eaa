/** src/Host.cc: the host's name and IPv4 address, computed by the first
    `getHost` and cached in statics. `gethostname` and the first address
    `gethostbyname` returns are inputs. */
module Hosts {
  import opened Common

  /** `x & 0xFF` on a `char`: the byte's two's-complement bits. */
  function Byte(x: int): (r: nat)
    ensures r < 256 && (x - r) % 256 == 0
  {
    x % 256
  }

  /** `(a << 24) | (b << 16) | (c << 8) | d`, stored in an `unsigned int`. */
  function Pack(a: int, b: int, c: int, d: int): (ip: nat)
    ensures ip < TWO_32
  {
    Byte(a) * 0x100_0000 + Byte(b) * 0x1_0000 + Byte(c) * 256 + Byte(d)
  }

  /** The four bytes of an address, most significant first (the dotted
      quad). */
  function Unpack(ip: nat): (q: seq<nat>)
    requires ip < TWO_32
    ensures |q| == 4 && forall i :: 0 <= i < 4 ==> q[i] < 256
  {
    [ip / 0x100_0000, ip / 0x1_0000 % 256, ip / 256 % 256, ip % 256]
  }

  /** Unpacking big-endian gives back the four masked bytes. */
  lemma PackUnpack(a: int, b: int, c: int, d: int)
    ensures Unpack(Pack(a, b, c, d)) == [Byte(a), Byte(b), Byte(c), Byte(d)]
  {
    var A, B, C, D := Byte(a), Byte(b), Byte(c), Byte(d);
    var ip := Pack(a, b, c, d);
    DivMod(ip, 0x100_0000, A, B * 0x1_0000 + C * 256 + D);
    DivMod(ip, 0x1_0000, A * 256 + B, C * 256 + D);
    DivMod(A * 256 + B, 256, A, B);
    DivMod(ip, 256, A * 0x1_0000 + B * 256 + C, D);
    DivMod(A * 0x1_0000 + B * 256 + C, 256, A * 256 + B, C);
  }

  lemma DivMod(x: int, k: int, q: int, r: int)
    requires k > 0 && 0 <= r < k && x == q * k + r
    ensures x / k == q && x % k == r
  {
    var q', r' := x / k, x % k;
    assert x == q' * k + r';
    if q' != q {
      var m := if q' > q then q' - q else q - q';
      assert m * k == if q' > q then r - r' else r' - r by {
        assert q' * k - q * k == (q' - q) * k;
      }
      MulAtLeast(m, k);
    }
  }

  lemma MulAtLeast(m: int, k: int)
    requires m >= 1 && k > 0
    ensures m * k >= k
  {
    assert m * k == (m - 1) * k + k;
    assert (m - 1) * k >= 0;
  }

  lemma {:induction false} UnpackPack(ip: nat)
    requires ip < TWO_32
    ensures Pack(Unpack(ip)[0], Unpack(ip)[1], Unpack(ip)[2], Unpack(ip)[3]) == ip
  {
    var q := Unpack(ip);
    assert q[0] * 0x100_0000 + ip % 0x100_0000 == ip;
    ModSplit(ip, 0x1_0000, 256);
    ModSplit(ip, 256, 256);
  }

  /** The remainder by `k * m` splits into a digit of weight `k` and the
      remainder by `k`. */
  lemma ModSplit(x: nat, k: nat, m: nat)
    requires k > 0 && m > 0
    ensures x % (k * m) == x / k % m * k + x % k
  {
    var a, r := x / k, x % k;
    var b, c := a / m, a % m;
    Regroup(b, m, c, k);
    DigitBound(c, r, k, m);
    DivMod(x, k * m, b, c * k + r);
  }

  lemma Regroup(b: int, m: int, c: int, k: int)
    ensures (b * m + c) * k == b * (k * m) + c * k
  {
  }

  lemma DigitBound(c: int, r: int, k: int, m: int)
    requires 0 <= c < m && 0 <= r < k
    ensures c * k + r < k * m
  {
    MulAtLeast(m - c, k);
    assert (m - c) * k == k * m - c * k;
  }

  /** `Host`'s statics: `thisHost` (whether `getHost` has run), `_IPAddr`
      and `_hostname`. */
  class Host {
    var created: bool
    var ipAddr: nat
    var hostname: string

    constructor ()
      ensures !created && ipAddr == 0 && hostname == ""
    {
      created := false;
      ipAddr := 0;
      hostname := "";
    }

    /** `getHost`: on the first call records the name and packs the first
        address; later calls change nothing. */
    method GetHost(name: string, address: seq<int>)
      requires |address| >= 4
      modifies this
      ensures old(created) ==> unchanged(this)
      ensures !old(created) ==> created && hostname == name && ipAddr == Pack(address[0], address[1], address[2], address[3])
      ensures ipAddr < TWO_32 || ipAddr == old(ipAddr)
    {
      if !created {
        hostname := name;
        ipAddr := Pack(address[0], address[1], address[2], address[3]);
        created := true;
      }
    }

    function GetIPAddress(): (ip: nat) reads this ensures ip == ipAddr { ipAddr }
    function GetHostName(): (name: string) reads this ensures name == hostname { hostname }
  }
}
