/** Plugin registries and configuration lists are searched in registration order. */
module Registry {
  import opened Wrappers

  /** `.stream().filter(p).findFirst()`: the index of the first element that satisfies `p`. */
  function FirstMatch<T>(s: seq<T>, p: T -> bool): (r: Option<nat>)
    ensures r.Some? ==> r.value < |s|
  {
    if |s| == 0 then None
    else if p(s[0]) then Some(0)
    else match FirstMatch(s[1..], p)
      case None => None
      case Some(i) => Some(i + 1)
  }

  /** The index found satisfies `p` and no earlier one does; nothing is found only if none does. */
  lemma {:induction false} FirstMatchIsFirst<T>(s: seq<T>, p: T -> bool)
    ensures FirstMatch(s, p).Some? ==> p(s[FirstMatch(s, p).value])
    ensures FirstMatch(s, p).Some? ==> forall j :: 0 <= j < FirstMatch(s, p).value ==> !p(s[j])
    ensures FirstMatch(s, p).None? <==> forall j :: 0 <= j < |s| ==> !p(s[j])
  {
    if |s| > 0 && !p(s[0]) {
      FirstMatchIsFirst(s[1..], p);
      assert forall j :: 1 <= j < |s| ==> s[j] == s[1..][j - 1];
    }
  }

  /** `.stream().filter(p).findAny()`: some element that satisfies `p`, if there is one. */
  function FindAny<T>(s: seq<T>, p: T -> bool): (r: Option<T>)
  {
    match FirstMatch(s, p)
    case None => None
    case Some(i) => Some(s[i])
  }

  lemma FindAnyFinds<T>(s: seq<T>, p: T -> bool)
    ensures FindAny(s, p).Some? ==> FindAny(s, p).value in s && p(FindAny(s, p).value)
    ensures FindAny(s, p).None? <==> forall x :: x in s ==> !p(x)
  {
    FirstMatchIsFirst(s, p);
    if FindAny(s, p).None? {
      forall x | x in s
        ensures !p(x)
      {
        var j :| 0 <= j < |s| && s[j] == x;
      }
    }
  }
}
