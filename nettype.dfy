/** The network variant tags of netType.hpp and the integers they are saved as. */
module NetTypes {
  import opened Common

  /** netType.hpp:15-22, in declaration order. */
  datatype NetType = Plain | OutputBlending | HInput | Uesmann

  /** The position of each variant in the declaration. */
  function Ordinal(t: NetType): nat
  {
    match t
    case Plain => 0
    case OutputBlending => 1
    case HInput => 2
    case Uesmann => 3
  }

  /** PLAIN is 1000 and each later enumerator is one more than the one before (netType.hpp:16-19). */
  function Code(t: NetType): int
  {
    1000 + Ordinal(t)
  }

  /** MAX is declared equal to PLAIN (netType.hpp:21). */
  const MaxCode: int := Code(Plain)

  /** The tag a saved integer stands for, if any. */
  function FromCode(c: int): (r: Option<NetType>)
    ensures r.Some? <==> 1000 <= c <= 1003
  {
    if c == 1000 then Some(Plain)
    else if c == 1001 then Some(OutputBlending)
    else if c == 1002 then Some(HInput)
    else if c == 1003 then Some(Uesmann)
    else None
  }

  /** The four codes are 1000, 1001, 1002 and 1003. */
  lemma CodeValues()
    ensures Code(Plain) == 1000 && Code(OutputBlending) == 1001 && Code(HInput) == 1002 && Code(Uesmann) == 1003
  {
  }

  /** Every tag is read back from its code, and every code read back is that tag's: the tags are pairwise distinct. */
  lemma CodeRoundTrip(t: NetType, c: int)
    ensures FromCode(Code(t)) == Some(t)
    ensures FromCode(c) == Some(t) ==> Code(t) == c
  {
  }

  /** Distinct tags have distinct codes. */
  lemma CodesDistinct(s: NetType, t: NetType)
    ensures Code(s) == Code(t) <==> s == t
  {
    CodeRoundTrip(s, Code(t));
    CodeRoundTrip(t, Code(s));
  }

  /** MAX is PLAIN's code, which is the smallest code, not the largest. */
  lemma MaxIsSmallest(t: NetType)
    ensures MaxCode == 1000 && MaxCode <= Code(t)
    ensures t != Plain ==> MaxCode < Code(t)
  {
  }
}
