/** The names of the Redis keys, and when two of them are the same. */
module RedisKeys {
  import opened Types
  import opened Views

  function Digit(d: nat): (c: char)
    requires d < 10
    ensures '0' <= c <= '9'
  {
    '0' + d as char
  }

  /** An id as it is written in a key. */
  function Text(id: Id): (t: string)
    ensures t != [] && ':' !in t
  {
    if id < 10 then [Digit(id)] else Text(id / 10) + [Digit(id % 10)]
  }

  lemma {:induction false} TextIsInjective(a: Id, b: Id)
    requires Text(a) == Text(b)
    ensures a == b
  {
    var n := |Text(a)| - 1;
    assert Text(a)[n] == Digit(a % 10) && Text(b)[n] == Digit(b % 10);
    assert Text(a)[..n] == if a < 10 then [] else Text(a / 10);
    assert Text(b)[..n] == if b < 10 then [] else Text(b / 10);
    if a >= 10 && b >= 10 {
      TextIsInjective(a / 10, b / 10);
    }
  }

  function BlacklistKey(jti: Id): string {
    "bl:access:" + Text(jti)
  }

  function ResetKey(token: Id): string {
    "pwreset:" + Text(token)
  }

  function TokenVersionKey(user: Id): string {
    "user:token-version:" + Text(user)
  }

  function RoleKey(board: Id, user: Id): string {
    RolePrefix(board) + Text(user)
  }

  function RolePrefix(board: Id): string {
    "board:role:" + Text(board) + ":"
  }

  function DetailKey(template: Id): string {
    "tpl:detail:" + Text(template)
  }

  predicate HasPrefix(key: string, prefix: string) {
    prefix <= key
  }

  // ---- Keys of different kinds ----------------------------------------------------------

  /** The second letter tells the kinds apart. */
  function Kind(key: string): char {
    if |key| > 1 then key[1] else ' '
  }

  lemma KindOfKey(a: Id, b: Id)
    ensures Kind(BlacklistKey(a)) == 'l' && Kind(ResetKey(a)) == 'w' && Kind(TokenVersionKey(a)) == 's'
    ensures Kind(RoleKey(a, b)) == 'o' && Kind(DetailKey(a)) == 'p'
  {
    hide Text;
  }

  /** No key of one kind is a key of another. */
  lemma KeysDoNotCollide(a: Id, b: Id, c: Id, d: Id, e: Id, f: Id)
    ensures NoDup([BlacklistKey(a), ResetKey(b), TokenVersionKey(c), RoleKey(d, e), DetailKey(f)])
  {
    KindOfKey(a, a);
    KindOfKey(b, b);
    KindOfKey(c, c);
    KindOfKey(d, e);
    KindOfKey(f, f);
    hide Kind;
    hide Text;
  }

  // ---- Keys of one kind -----------------------------------------------------------------

  lemma SameTail(head: string, a: Id, b: Id)
    requires head + Text(a) == head + Text(b)
    ensures a == b
  {
    assert (head + Text(a))[|head|..] == Text(a) && (head + Text(b))[|head|..] == Text(b);
    TextIsInjective(a, b);
  }

  lemma KeysAreInjective(a: Id, b: Id)
    ensures BlacklistKey(a) == BlacklistKey(b) ==> a == b
    ensures ResetKey(a) == ResetKey(b) ==> a == b
    ensures TokenVersionKey(a) == TokenVersionKey(b) ==> a == b
    ensures DetailKey(a) == DetailKey(b) ==> a == b
  {
    hide Text;
    if BlacklistKey(a) == BlacklistKey(b) {
      SameTail("bl:access:", a, b);
    }
    if ResetKey(a) == ResetKey(b) {
      SameTail("pwreset:", a, b);
    }
    if TokenVersionKey(a) == TokenVersionKey(b) {
      SameTail("user:token-version:", a, b);
    }
    if DetailKey(a) == DetailKey(b) {
      SameTail("tpl:detail:", a, b);
    }
  }

  lemma FirstIs(s: string, c: char, i: nat)
    requires i < |s| && s[i] == c && forall j | 0 <= j < i :: s[j] != c
    ensures IndexOf(s, c) == i
  {
    var k := IndexOf(s, c);
  }

  lemma HeadOf(p: string, s: string)
    requires ':' !in p && p + ":" <= s
    ensures ':' in s && IndexOf(s, ':') == |p| && p == s[..|p|]
  {
    assert p == (p + ":")[..|p|] == s[..|p|];
    assert (p + ":")[|p|] == s[|p|];
    assert forall j | 0 <= j < |p| :: s[j] == p[j];
    FirstIs(s, ':', |p|);
  }

  /** Two texts before the first colon of one string are the same text. */
  lemma SameHead(p: string, q: string, s: string)
    requires ':' !in p && ':' !in q && p + ":" <= s && q + ":" <= s
    ensures p == q
  {
    HeadOf(p, s);
    HeadOf(q, s);
  }

  /** The pattern of a board matches the entries of that board and of no other. */
  lemma RolePatternIsExact(board: Id, other: Id, user: Id)
    ensures HasPrefix(RoleKey(other, user), RolePrefix(board)) <==> board == other
  {
    hide Text;
    var head, key := "board:role:", RoleKey(other, user);
    if HasPrefix(key, RolePrefix(board)) {
      var rest := key[|head|..];
      assert RolePrefix(board)[|head|..] == Text(board) + ":" <= rest;
      assert RolePrefix(other)[|head|..] == Text(other) + ":" <= rest;
      SameHead(Text(board), Text(other), rest);
      TextIsInjective(board, other);
    }
  }

  lemma RoleKeysAreInjective(board: Id, user: Id, other: Id, who: Id)
    requires RoleKey(board, user) == RoleKey(other, who)
    ensures board == other && user == who
  {
    hide Text;
    RolePatternIsExact(board, other, who);
    SameTail(RolePrefix(board), user, who);
  }
}
