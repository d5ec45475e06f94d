/** Attempt-scoped object keys: `<prefix>/<job>/<attempt>/<type>`. */
module ObjectKeys {
  import opened Common
  import opened Database
  import opened Outputs

  const HEX: string := "0123456789abcdef"

  /** The text of an id, without the dashes of a UUID. */
  function Text(n: Uuid): string {
    if n < 16 then [HEX[n]] else Text(n / 16) + [HEX[n % 16]]
  }

  predicate SlashFree(s: string) {
    forall i :: 0 <= i < |s| ==> s[i] != '/'
  }

  function Join(prefix: string, last: string): string {
    prefix + "/" + last
  }

  function Key(prefix: string, j: Uuid, a: Uuid, t: OutputType): string {
    Join(Join(Join(prefix, Text(j)), Text(a)), TypeName(t))
  }

  function CdnUrl(base: string, key: string): string {
    if base == "" then "/" + key else base + "/" + key
  }

  lemma {:induction false} TextSlashFree(n: Uuid)
    ensures SlashFree(Text(n)) && |Text(n)| > 0
  {
    if n >= 16 {
      TextSlashFree(n / 16);
    }
  }

  /** The value of a hexadecimal digit. */
  function DigitValue(d: char): int {
    if '0' <= d <= '9' then d as int - '0' as int
    else if 'a' <= d <= 'f' then d as int - 'a' as int + 10
    else -1
  }

  /** The number that a hexadecimal text denotes. */
  function ValueOf(s: string): int {
    if s == "" then 0 else 16 * ValueOf(s[..|s| - 1]) + DigitValue(s[|s| - 1])
  }

  lemma DigitOf(n: nat)
    requires n < 16
    ensures DigitValue(HEX[n]) == n
  {
  }

  /** The text of an id is its hexadecimal notation. */
  lemma {:induction false} TextIsHex(n: Uuid)
    ensures ValueOf(Text(n)) == n
  {
    DigitOf(n % 16);
    if n < 16 {
      assert Text(n)[..0] == "";
    } else {
      TextIsHex(n / 16);
      assert Text(n)[..|Text(n)| - 1] == Text(n / 16);
    }
  }

  lemma TextInjective(m: Uuid, n: Uuid)
    requires Text(m) == Text(n)
    ensures m == n
  {
    TextIsHex(m);
    TextIsHex(n);
  }

  /** The last component can be read back off a joined path. */
  lemma JoinInjective(p: string, x: string, q: string, y: string)
    requires SlashFree(x) && SlashFree(y) && Join(p, x) == Join(q, y)
    ensures p == q && x == y
  {
    var k := Join(p, x);
    assert k[|p|] == '/' && k[|q|] == '/';
    assert forall i :: |p| < i < |k| ==> k[i] == x[i - |p| - 1];
    assert forall i :: |q| < i < |k| ==> k[i] == y[i - |q| - 1];
    assert p == k[..|p|] && q == k[..|q|];
    assert x == k[|p| + 1..] && y == k[|q| + 1..];
  }

  /** Equal keys, even under different prefixes, belong to the same job, attempt and type. */
  lemma KeyInjective(prefix: string, j: Uuid, a: Uuid, t: OutputType,
                     prefix': string, j': Uuid, a': Uuid, t': OutputType)
    requires Key(prefix, j, a, t) == Key(prefix', j', a', t')
    ensures prefix == prefix' && j == j' && a == a' && t == t'
  {
    TextSlashFree(j);
    TextSlashFree(a);
    TextSlashFree(j');
    TextSlashFree(a');
    assert SlashFree(TypeName(t)) && SlashFree(TypeName(t'));
    JoinInjective(Join(Join(prefix, Text(j)), Text(a)), TypeName(t),
                  Join(Join(prefix', Text(j')), Text(a')), TypeName(t'));
    JoinInjective(Join(prefix, Text(j)), Text(a), Join(prefix', Text(j')), Text(a'));
    JoinInjective(prefix, Text(j), prefix', Text(j'));
    TextInjective(j, j');
    TextInjective(a, a');
    TypeNamesDiffer(t, t');
  }
}
