/** Prefix hashes of an LLM prompt (api/invocation/util.py). */
module Prefixes {
  import opened Base

  const FIRST_SIZE := 1024

  function Pow2(n: nat): nat {
    if n == 0 then 1 else 2 * Pow2(n - 1)
  }

  // The i-th prefix size.
  function Size(i: nat): nat {
    FIRST_SIZE * Pow2(i)
  }

  lemma {:induction false} SizesGrow(i: nat, j: nat)
    requires i < j
    ensures Size(i) < Size(j)
  {
    if i + 1 < j {
      SizesGrow(i, j - 1);
    }
    assert Pow2(j) == 2 * Pow2(j - 1);
    PowPositive(j - 1);
  }

  lemma {:induction false} PowPositive(n: nat)
    ensures Pow2(n) >= 1
  {
    if n > 0 {
      PowPositive(n - 1);
    }
  }

  // The sizes start at 1024 and double.
  lemma SizesDouble(i: nat)
    ensures Size(0) == 1024 && Size(i + 1) == 2 * Size(i)
  {
    assert Pow2(0) == 1;
  }

  /** Longest prefix first, the sizes are exactly the values 1024 * 2^i below the prompt's length, each
      hashed over that many leading characters. */
  method PromptPrefixHashes(prompt: string, md5: string -> string) returns (hashes: seq<(nat, string)>)
    ensures forall k :: 0 <= k < |hashes| ==>
              && hashes[k].0 == Size(|hashes| - 1 - k) < |prompt|
              && hashes[k].1 == md5(prompt[..hashes[k].0])
    ensures forall i: nat :: Size(i) < |prompt| <==> i < |hashes|
    ensures forall j, k :: 0 <= j < k < |hashes| ==> hashes[j].0 > hashes[k].0
  {
    if |prompt| <= 1024 {
      forall i: nat ensures !(Size(i) < |prompt|) {
        PowPositive(i);
      }
      return [];
    }
    var size := 1024;
    hashes := [];
    assert Pow2(0) == 1;
    while |prompt| > size
      invariant size == Size(|hashes|)
      invariant forall k :: 0 <= k < |hashes| ==>
                  && hashes[k].0 == Size(k) < |prompt|
                  && hashes[k].1 == md5(prompt[..hashes[k].0])
      decreases |prompt| - size
    {
      hashes := hashes + [(size, md5(prompt[..size]))];
      SizesGrow(|hashes| - 1, |hashes|);
      size := size * 2;
    }
    forall i: nat ensures Size(i) < |prompt| <==> i < |hashes| {
      if i < |hashes| {
        assert hashes[i].0 == Size(i);
      } else if i > |hashes| {
        SizesGrow(|hashes|, i);
      }
    }
    hashes := Backwards(hashes);
    forall j, k | 0 <= j < k < |hashes| ensures hashes[j].0 > hashes[k].0 {
      SizesGrow(|hashes| - 1 - k, |hashes| - 1 - j);
    }
  }

  // hashes[::-1]
  function Backwards<T>(s: seq<T>): (r: seq<T>)
    ensures |r| == |s| && forall k :: 0 <= k < |s| ==> r[k] == s[|s| - 1 - k]
  {
    if s == [] then [] else [s[|s| - 1]] + Backwards(s[..|s| - 1])
  }
}
