/** Python slicing with an integer bound, including the negative and zero cases. */
module PySlice {

  /** `s[-k:]`: for k >= 1 the last min(k, |s|) elements; `s[-0:]` is all of `s`; for k < 0 all but the first -k. */
  function Suffix<T>(s: seq<T>, k: int): (r: seq<T>)
    ensures |r| <= |s| && r == s[|s| - |r|..]
    ensures k >= 1 ==> |r| == (if k < |s| then k else |s|)
    ensures k == 0 ==> r == s
    ensures k < 0 ==> |r| == (if -k < |s| then |s| + k else 0)
  {
    if k > 0 then (if k >= |s| then s else s[|s| - k..])
    else if k == 0 then s
    else if -k >= |s| then []
    else s[-k..]
  }

  /** `s[:k]`: for k >= 0 the first min(k, |s|) elements; for k < 0 all but the last -k. */
  function Prefix<T>(s: seq<T>, k: int): (r: seq<T>)
    ensures |r| <= |s| && r == s[..|r|]
    ensures k >= 0 ==> |r| == (if k < |s| then k else |s|)
    ensures k < 0 ==> |r| == (if -k < |s| then |s| + k else 0)
  {
    if k >= 0 then (if k >= |s| then s else s[..k])
    else if -k >= |s| then []
    else s[..|s| + k]
  }
}
