/**
 The textual keys of sessions and request logs, and why they can be decoded:
 the fields around the domain never hold the separator, so even a domain with
 a '|' in it leaves the other fields recoverable.
 */
module Keys {
  import opened Model

  predicate Lacks(s: string, c: char) {
    forall i :: 0 <= i < |s| ==> s[i] != c
  }

  function Digit(d: nat): (c: char)
    requires d < 10
  {
    ('0' as int + d) as char
  }

  /** Decimal digits of a natural number, as `%d` prints it. */
  function NatText(n: nat): (s: string) {
    if n < 10 then [Digit(n)] else NatText(n / 10) + [Digit(n % 10)]
  }

  /** `%d` of an integer. */
  function IntText(n: int): string {
    if n < 0 then "-" + NatText(-n) else NatText(n)
  }

  lemma {:induction false} NatTextDigits(n: nat)
    ensures |NatText(n)| > 0
    ensures forall i :: 0 <= i < |NatText(n)| ==> '0' <= NatText(n)[i] <= '9'
  {
    if n >= 10 {
      NatTextDigits(n / 10);
    }
  }

  /** What a run of decimal digits is worth. */
  function Decimal(s: string): int {
    if s == [] then 0 else 10 * Decimal(s[..|s| - 1]) + (s[|s| - 1] as int - '0' as int)
  }

  /** A number is printed in base ten, without leading zeros. */
  lemma {:induction false} NatTextReadsBack(n: nat)
    ensures Decimal(NatText(n)) == n
    ensures NatText(n)[0] == '0' ==> n == 0
  {
    NatTextDigits(n);
    if n >= 10 {
      NatTextReadsBack(n / 10);
      NatTextDigits(n / 10);
      assert NatText(n)[..|NatText(n)| - 1] == NatText(n / 10);
    } else {
      assert [Digit(n)][..0] == [];
    }
  }

  lemma {:induction false} NatTextInjective(m: nat, n: nat)
    requires NatText(m) == NatText(n)
    ensures m == n
  {
    NatTextDigits(m / 10);
    NatTextDigits(n / 10);
    var s, t := NatText(m), NatText(n);
    assert s[|s| - 1] == Digit(m % 10) && t[|t| - 1] == Digit(n % 10);
    assert m % 10 == n % 10;
    if m >= 10 && n >= 10 {
      assert s[..|s| - 1] == NatText(m / 10) && t[..|t| - 1] == NatText(n / 10);
      NatTextInjective(m / 10, n / 10);
    }
  }

  lemma IntTextInjective(m: int, n: int)
    requires IntText(m) == IntText(n)
    ensures m == n
  {
    var a, b := if m < 0 then -m else m, if n < 0 then -n else n;
    NatTextDigits(a);
    NatTextDigits(b);
    assert IntText(m)[0] == IntText(n)[0];
    if m < 0 && n < 0 {
      assert IntText(m)[1..] == NatText(a) && IntText(n)[1..] == NatText(b);
    }
    NatTextInjective(a, b);
  }

  lemma IntTextLacks(n: int, c: char)
    requires c != '-' && !('0' <= c <= '9')
    ensures Lacks(IntText(n), c)
  {
    NatTextDigits(if n < 0 then -n else n);
  }

  /** Text before the first separator is determined when it lacks the separator. */
  lemma SplitFirst(a: string, x: string, b: string, y: string, c: char)
    requires Lacks(a, c) && Lacks(b, c)
    requires a + [c] + x == b + [c] + y
    ensures a == b && x == y
  {
    var s, t := a + [c] + x, b + [c] + y;
    assert s[|a|] == c && t[|b|] == c;
    assert forall i :: 0 <= i < |a| ==> s[i] != c;
    assert forall i :: 0 <= i < |b| ==> t[i] != c;
    assert s[..|a|] == a && t[..|b|] == b;
    assert s[|a| + 1..] == x && t[|b| + 1..] == y;
  }

  /** Text after the last separator is determined when it lacks the separator. */
  lemma SplitLast(x: string, a: string, y: string, b: string, c: char)
    requires Lacks(a, c) && Lacks(b, c)
    requires x + [c] + a == y + [c] + b
    ensures a == b && x == y
  {
    var s, t := x + [c] + a, y + [c] + b;
    assert s[|x|] == c && t[|y|] == c;
    assert forall i :: |x| < i < |s| ==> s[i] == a[i - |x| - 1];
    assert forall i :: |y| < i < |t| ==> t[i] == b[i - |y| - 1];
    assert s[..|x|] == x && t[..|y|] == y;
    assert s[|x| + 1..] == a && t[|y| + 1..] == b;
  }

  /** `iface|srcIP|srcPort|dstIP|dstPort|domain|epoch`. */
  function SessionKeyText(iface: string, f: FlowKey, domain: string, second: int): (key: string) {
    iface + ['|'] + (f.srcIP + ['|'] + (IntText(f.srcPort) + ['|'] + (f.dstIP + ['|']
    + (IntText(f.dstPort) + ['|'] + (domain + ['|'] + IntText(second))))))
  }

  /** The fields in the order they are printed. */
  lemma KeyFields(iface: string, f: FlowKey, domain: string, second: int, n: int)
    ensures var key := iface + "|" + f.srcIP + "|" + IntText(f.srcPort) + "|" + f.dstIP + "|" + IntText(f.dstPort)
                       + "|" + domain + "|" + IntText(second);
      && SessionKeyText(iface, f, domain, second) == key
      && RequestKeyText(key, n) == key + "#" + IntText(n)
  {
    hide IntText;
    var a, b, c, d := IntText(f.srcPort), IntText(f.dstPort), IntText(second), domain;
    assert iface + "|" + f.srcIP + "|" + a + "|" + f.dstIP + "|" + b + "|" + d + "|" + c
        == iface + "|" + (f.srcIP + "|" + (a + "|" + (f.dstIP + "|" + (b + "|" + (d + "|" + c)))));
  }

  predicate PlainFlow(f: FlowKey) {
    Lacks(f.srcIP, '|') && Lacks(f.dstIP, '|')
  }

  lemma SessionKeyInjective(i: string, f: FlowKey, d: string, e: int, i': string, f': FlowKey, d': string, e': int)
    requires Lacks(i, '|') && Lacks(i', '|') && PlainFlow(f) && PlainFlow(f')
    requires SessionKeyText(i, f, d, e) == SessionKeyText(i', f', d', e')
    ensures i == i' && f == f' && d == d' && e == e'
  {
    IntTextLacks(f.srcPort, '|');
    IntTextLacks(f.dstPort, '|');
    IntTextLacks(e, '|');
    IntTextLacks(f'.srcPort, '|');
    IntTextLacks(f'.dstPort, '|');
    IntTextLacks(e', '|');
    var r5, r5' := d + ['|'] + IntText(e), d' + ['|'] + IntText(e');
    var r4, r4' := IntText(f.dstPort) + ['|'] + r5, IntText(f'.dstPort) + ['|'] + r5';
    var r3, r3' := f.dstIP + ['|'] + r4, f'.dstIP + ['|'] + r4';
    var r2, r2' := IntText(f.srcPort) + ['|'] + r3, IntText(f'.srcPort) + ['|'] + r3';
    var r1, r1' := f.srcIP + ['|'] + r2, f'.srcIP + ['|'] + r2';
    SplitFirst(i, r1, i', r1', '|');
    SplitFirst(f.srcIP, r2, f'.srcIP, r2', '|');
    SplitFirst(IntText(f.srcPort), r3, IntText(f'.srcPort), r3', '|');
    SplitFirst(f.dstIP, r4, f'.dstIP, r4', '|');
    SplitFirst(IntText(f.dstPort), r5, IntText(f'.dstPort), r5', '|');
    SplitLast(d, IntText(e), d', IntText(e'), '|');
    IntTextInjective(f.srcPort, f'.srcPort);
    IntTextInjective(f.dstPort, f'.dstPort);
    IntTextInjective(e, e');
  }

  /** `session#n`. */
  function RequestKeyText(sessionKey: string, n: int): string {
    sessionKey + ['#'] + IntText(n)
  }

  lemma RequestKeyInjective(k: string, n: int, k': string, n': int)
    requires RequestKeyText(k, n) == RequestKeyText(k', n')
    ensures k == k' && n == n'
  {
    IntTextLacks(n, '#');
    IntTextLacks(n', '#');
    SplitLast(k, IntText(n), k', IntText(n'), '#');
    IntTextInjective(n, n');
  }
}
