/** The idempotency key core knows a create job by. */
module Keys {

  const PREFIX := "nodejob-"

  predicate Hex(c: char) {
    '0' <= c <= '9' || 'a' <= c <= 'f'
  }

  // The canonical text of a UUID: groups of 8, 4, 4, 4 and 12 hexadecimal digits.
  predicate Canonical(id: string) {
    && |id| == 36
    && forall i :: 0 <= i < 36 ==> if i == 8 || i == 13 || i == 18 || i == 23 then id[i] == '-' else Hex(id[i])
  }

  // strings.ReplaceAll(id, "-", "")
  function WithoutDashes(id: string): string {
    if id == [] then []
    else WithoutDashes(id[..|id|-1]) + if id[|id|-1] == '-' then [] else [id[|id|-1]]
  }

  function CoreIdempotencyKey(id: string): string {
    PREFIX + WithoutDashes(id)
  }

  // Where the dashes are is all that is lost.
  predicate SameDashes(a: string, b: string) {
    |a| == |b| && forall i :: 0 <= i < |a| ==> (a[i] == '-' <==> b[i] == '-')
  }

  lemma {:induction false} DashesRestored(a: string, b: string)
    requires SameDashes(a, b) && WithoutDashes(a) == WithoutDashes(b)
    ensures a == b
    decreases |a|
  {
    if a != [] {
      var x, y := a[..|a|-1], b[..|b|-1];
      var s, t := WithoutDashes(x), WithoutDashes(y);
      if a[|a|-1] != '-' {
        assert s == (s + [a[|a|-1]])[..|s|] && t == (t + [b[|b|-1]])[..|t|];
        assert |s + [a[|a|-1]]| == |t + [b[|b|-1]]|;
        assert (s + [a[|a|-1]])[|s|] == (t + [b[|b|-1]])[|t|];
      } else {
        assert s + [] == s && t + [] == t;
      }
      DashesRestored(x, y);
      assert a == x + [a[|a|-1]] && b == y + [b[|b|-1]];
    }
  }

  // Different jobs have different keys.
  lemma KeysDiffer(a: string, b: string)
    requires Canonical(a) && Canonical(b) && CoreIdempotencyKey(a) == CoreIdempotencyKey(b)
    ensures a == b
  {
    var s, t := WithoutDashes(a), WithoutDashes(b);
    assert s == (PREFIX + s)[|PREFIX|..] && t == (PREFIX + t)[|PREFIX|..];
    DashesRestored(a, b);
  }
}
