/** Taking one element out of a sequence that holds it once. */
module Removal {

  ghost predicate Distinct<T>(s: seq<T>) {
    forall i, j :: 0 <= i < j < |s| ==> s[i] != s[j]
  }

  ghost function Remove<T>(s: seq<T>, x: T): seq<T> {
    if s == [] then [] else if s[0] == x then s[1..] else [s[0]] + Remove(s[1..], x)
  }

  lemma RemoveNothing<T>(s: seq<T>, x: T)
    requires s == []
    ensures Remove(s, x) == s
  {}

  lemma {:induction false} RemoveAt<T>(s: seq<T>, k: nat)
    requires k < |s| && Distinct(s)
    ensures Remove(s, s[k]) == s[..k] + s[k + 1..]
  {
    if k > 0 {
      RemoveAt(s[1..], k - 1);
      assert s[1..][..k - 1] == s[1..k] && s[1..][k..] == s[k + 1..];
      assert s[..k] == [s[0]] + s[1..k];
    }
  }

  lemma RemoveEnds<T>(s: seq<T>, k: nat)
    requires k < |s| && Distinct(s)
    ensures var t := Remove(s, s[k]);
      && |t| == |s| - 1
      && (|s| > 1 ==> t[0] == if k == 0 then s[1] else s[0])
      && (|s| > 1 ==> t[|t| - 1] == if k == |s| - 1 then s[|s| - 2] else s[|s| - 1])
      && (forall i {:trigger t[i]} :: 0 <= i < |t| ==> t[i] in s && t[i] != s[k])
    ensures s[0] == s[k] <==> k == 0
    ensures s[|s| - 1] == s[k] <==> k == |s| - 1
  {
    RemoveAt(s, k);
  }

  lemma DistinctSplice<T>(s: seq<T>, k: nat)
    requires Distinct(s) && k < |s|
    ensures Distinct(s[..k] + s[k + 1..])
  {}
}
