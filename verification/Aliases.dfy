/** Metadata normalisation (src/protocol.rs): the alias loop and its declarative form. */
module Aliases {
  import opened Json

  datatype Alias = Alias(snake: string, camel: string)

  type Fields = map<string, Json>

  const TABLE: seq<Alias> := [
    Alias("reason_code", "reasonCode"),
    Alias("server_key", "serverKey"),
    Alias("time_diff", "timeDiff"),
    Alias("server_version", "serverVersion"),
    Alias("node_id", "nodeId"),
    Alias("message_id", "messageId"),
    Alias("message_seq", "messageSeq"),
    Alias("channel_id", "channelId"),
    Alias("channel_type", "channelType"),
    Alias("from_uid", "fromUid"),
    Alias("client_msg_no", "clientMsgNo"),
    Alias("no_persist", "noPersist"),
    Alias("red_dot", "redDot"),
    Alias("sync_once", "syncOnce")
  ]

  /** No spelling occurs twice in the table, so its entries do not interfere. */
  ghost predicate Proper(t: seq<Alias>) {
    && (forall i, j :: 0 <= i < |t| && 0 <= j < |t| ==> t[i].snake != t[j].camel)
    && (forall i, j :: 0 <= i < j < |t| ==> t[i].snake != t[j].snake && t[i].camel != t[j].camel)
  }

  /** A fingerprint that tells the names of the table apart: length, first and last letter. */
  function Mark(s: string): int {
    if s == "" then 0 else |s| * 1_000_000 + (s[0] as int) * 1000 + (s[|s| - 1] as int)
  }

  const SNAKE_MARKS: seq<int> := [11_114_101, 10_115_121, 9_116_102, 14_115_110, 7_110_100, 10_109_100, 11_109_113, 10_099_100, 12_099_101, 8_102_100, 13_099_111, 10_110_116, 7_114_116, 9_115_101]
  const CAMEL_MARKS: seq<int> := [10_114_101, 9_115_121, 8_116_102, 13_115_110, 6_110_100, 9_109_100, 10_109_113, 9_099_100, 11_099_101, 7_102_100, 11_099_111, 9_110_116, 6_114_116, 8_115_101]

  lemma TableMarks(i: nat)
    requires i < |TABLE|
    ensures i < |SNAKE_MARKS| && Mark(TABLE[i].snake) == SNAKE_MARKS[i]
    ensures i < |CAMEL_MARKS| && Mark(TABLE[i].camel) == CAMEL_MARKS[i]
  {
  }

  lemma TableProper()
    ensures Proper(TABLE)
  {
    forall i | 0 <= i < |TABLE|
      ensures Mark(TABLE[i].snake) == SNAKE_MARKS[i] && Mark(TABLE[i].camel) == CAMEL_MARKS[i]
    {
      TableMarks(i);
    }
    MarksDistinct();
  }

  lemma MarksDistinct()
    ensures |SNAKE_MARKS| == |CAMEL_MARKS| == |TABLE|
    ensures forall i, j :: 0 <= i < |SNAKE_MARKS| && 0 <= j < |CAMEL_MARKS| ==> SNAKE_MARKS[i] != CAMEL_MARKS[j]
    ensures forall i, j :: 0 <= i < j < |SNAKE_MARKS| ==> SNAKE_MARKS[i] != SNAKE_MARKS[j] && CAMEL_MARKS[i] != CAMEL_MARKS[j]
  {
  }

  /** One iteration of the loop: remove the snake_case key, keep its value only where camelCase is absent. */
  function Merge(m: Fields, a: Alias): Fields {
    if a.snake in m then
      var rest := m - {a.snake};
      if a.camel in rest then rest else rest[a.camel := m[a.snake]]
    else m
  }

  /** The loop over a table. */
  function MergeAll(m: Fields, t: seq<Alias>): Fields {
    if t == [] then m else Merge(MergeAll(m, t[..|t| - 1]), t[|t| - 1])
  }

  ghost predicate Named(t: seq<Alias>, k: string) {
    exists a :: a in t && (a.snake == k || a.camel == k)
  }

  /** The declarative form: `r` is `m` with every alias of `t` resolved in favour of camelCase. */
  ghost predicate Resolved(m: Fields, t: seq<Alias>, r: Fields) {
    && (forall a :: a in t ==> a.snake !in r)
    && (forall a :: a in t ==> (a.camel in r <==> a.camel in m || a.snake in m))
    && (forall a :: a in t && a.camel in m ==> a.camel in r && r[a.camel] == m[a.camel])
    && (forall a :: a in t && a.camel !in m && a.snake in m ==> a.camel in r && r[a.camel] == m[a.snake])
    && (forall k :: !Named(t, k) ==> (k in r <==> k in m))
    && (forall k :: !Named(t, k) && k in m ==> k in r && r[k] == m[k])
  }

  lemma ProperPrefix(t: seq<Alias>)
    requires t != [] && Proper(t)
    ensures Proper(t[..|t| - 1])
    ensures !Named(t[..|t| - 1], t[|t| - 1].snake) && !Named(t[..|t| - 1], t[|t| - 1].camel)
  {
  }

  /** Resolving one more alias, unrelated to those already resolved. */
  lemma ResolvedStep(m: Fields, t: seq<Alias>, a: Alias, r: Fields)
    requires Resolved(m, t, r)
    requires a.snake != a.camel && !Named(t, a.snake) && !Named(t, a.camel)
    ensures Resolved(m, t + [a], Merge(r, a))
  {
    var u, q := t + [a], Merge(r, a);
    MergeKeepsOthers(r, a);
    forall b | b in t
      ensures b.snake !in q && (b.camel in q <==> b.camel in r) && (b.camel in q ==> q[b.camel] == r[b.camel])
    {
      assert Named(t, b.snake) && Named(t, b.camel);
    }
    forall k | !Named(u, k)
      ensures k in q <==> k in m
      ensures k in m ==> k in q && q[k] == m[k]
    {
      assert a in u;
      if Named(t, k) {
        var b :| b in t && (b.snake == k || b.camel == k);
        assert b in u;
      }
    }
    assert forall b :: b in u <==> b in t || b == a;
  }

  /** The loop computes the declarative form, for every proper table and every object. */
  lemma {:induction false} MergeAllResolves(m: Fields, t: seq<Alias>)
    requires Proper(t)
    ensures Resolved(m, t, MergeAll(m, t))
  {
    if t == [] {
    } else {
      var init, a := t[..|t| - 1], t[|t| - 1];
      ProperPrefix(t);
      MergeAllResolves(m, init);
      ResolvedStep(m, init, a, MergeAll(m, init));
      assert t == init + [a];
    }
  }

  lemma MergeKeepsOthers(m: Fields, a: Alias)
    requires a.snake != a.camel
    ensures forall k :: k != a.snake && k != a.camel ==> (k in Merge(m, a) <==> k in m)
    ensures forall k :: k != a.snake && k != a.camel && k in m ==> k in Merge(m, a) && Merge(m, a)[k] == m[k]
  {
  }

  /** The declarative form fixes the object completely; it mentions the table only as a set of aliases. */
  lemma ResolvedUnique(m: Fields, t: seq<Alias>, u: seq<Alias>, r: Fields, q: Fields)
    requires Resolved(m, t, r) && Resolved(m, u, q)
    requires forall a :: a in t <==> a in u
    ensures r == q
  {
    forall k
      ensures k in r <==> k in q
      ensures k in r && k in q ==> r[k] == q[k]
    {
      assert Named(t, k) <==> Named(u, k);
      if Named(t, k) {
        var a :| a in t && (a.snake == k || a.camel == k);
        assert a in u;
      }
    }
  }

  /** Reordering the alias list does not change what the loop computes. */
  lemma OrderIrrelevant(m: Fields, t: seq<Alias>, u: seq<Alias>)
    requires Proper(t) && Proper(u)
    requires multiset(t) == multiset(u)
    ensures MergeAll(m, t) == MergeAll(m, u)
  {
    forall a ensures a in t <==> a in u {
      assert a in t <==> a in multiset(t);
      assert a in u <==> a in multiset(u);
    }
    MergeAllResolves(m, t);
    MergeAllResolves(m, u);
    ResolvedUnique(m, t, u, MergeAll(m, t), MergeAll(m, u));
  }

  /** A resolved object has nothing left to resolve. */
  lemma ResolvedStable(m: Fields, t: seq<Alias>)
    requires forall a :: a in t ==> a.snake !in m
    ensures Resolved(m, t, m)
  {
  }
}
