/** std::to_string and printf's %d on non-negative numbers, and the two kinds of generated
    names built from them. */
module Decimal {

  function Digit(d: nat): (c: char)
    requires d < 10
    ensures '0' <= c <= '9'
  {
    '0' + d as char
  }

  function ToString(n: nat): (s: string)
    ensures 0 < |s| && forall i :: 0 <= i < |s| ==> '0' <= s[i] <= '9'
  {
    if n < 10 then [Digit(n)] else ToString(n / 10) + [Digit(n % 10)]
  }

  lemma {:induction false} ToStringInjective(m: nat, n: nat)
    requires ToString(m) == ToString(n)
    ensures m == n
  {
    var s, t := ToString(m), ToString(n);
    assert s[|s| - 1] == t[|t| - 1];
    if 10 <= m && 10 <= n {
      assert s[..|s| - 1] == ToString(m / 10) && t[..|t| - 1] == ToString(n / 10);
      ToStringInjective(m / 10, n / 10);
    }
  }

  /** A numeral read in base ten. */
  function Value(s: string): nat
    requires forall i :: 0 <= i < |s| ==> '0' <= s[i] <= '9'
  {
    if s == [] then 0 else 10 * Value(s[..|s| - 1]) + (s[|s| - 1] as nat - '0' as nat)
  }

  /** The numeral of n reads as n, and has no leading zero. */
  lemma {:induction false} ToStringReadsBack(n: nat)
    ensures Value(ToString(n)) == n
    ensures ToString(n)[0] == '0' ==> n == 0 && ToString(n) == "0"
  {
    var s := ToString(n);
    if n < 10 {
      assert s[..|s| - 1] == [];
    } else {
      ToStringReadsBack(n / 10);
      assert s[..|s| - 1] == ToString(n / 10) && s[0] == ToString(n / 10)[0];
    }
  }

  /** The name under which a node's i-th replica is hashed (ads_ConsistenHash.h). */
  function VirtualName(node: string, i: nat): string {
    node + "_0" + ToString(i)
  }

  lemma VirtualNameShape(node: string, i: nat)
    ensures var s, d := VirtualName(node, i), |ToString(i)|;
            |s| == |node| + 2 + d && s[|node|] == '_' && s[..|node|] == node && s[|node| + 2..] == ToString(i)
    ensures forall k :: |node| < k < |VirtualName(node, i)| ==> VirtualName(node, i)[k] != '_'
  {
    assert node + "_0" + ToString(i) == node + ("_0" + ToString(i));
  }

  /** The last underscore fixes the split, whatever the node names contain. */
  lemma VirtualNameInjective(m: string, i: nat, n: string, j: nat)
    requires VirtualName(m, i) == VirtualName(n, j)
    ensures m == n && i == j
  {
    VirtualNameShape(m, i);
    VirtualNameShape(n, j);
    ToStringInjective(i, j);
  }

  lemma VirtualNameExample()
    ensures VirtualName("server1", 3) == "server1_03" && VirtualName("server1", 12) == "server1_012"
  {
    assert ToString(12) == ToString(1) + [Digit(2)];
  }

  /** TcpServer's connection name: server name, "-", listening address, "#", counter. */
  function ConnectionName(server: string, ipPort: string, id: nat): string {
    server + "-" + ipPort + "#" + ToString(id)
  }

  lemma ConnectionNameInjective(server: string, ipPort: string, i: nat, j: nat)
    requires ConnectionName(server, ipPort, i) == ConnectionName(server, ipPort, j)
    ensures i == j
  {
    var k := |server| + 1 + |ipPort| + 1;
    assert ConnectionName(server, ipPort, i)[k..] == ToString(i);
    assert ConnectionName(server, ipPort, j)[k..] == ToString(j);
    ToStringInjective(i, j);
  }

  lemma ConnectionNameExample()
    ensures ConnectionName("chat", "127.0.0.1:8000", 12) == "chat-127.0.0.1:8000#12"
  {
    assert ToString(12) == ToString(1) + [Digit(2)];
  }
}
