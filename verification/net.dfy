/** Addresses and the candidates a pool ranks. */
module Net {

  datatype IpAddr = V4(bits: nat) | V6(bits: nat)

  /** One probed endpoint: its address, the target that produced it, its tags. */
  datatype Candidate = Candidate(addr: IpAddr, target: nat, tags: seq<string>)

  function LiveSet(candidates: seq<Candidate>): set<IpAddr> {
    set c <- candidates :: c.addr
  }

  /** `a` stands somewhere before `b`. */
  ghost predicate Precedes<T>(s: seq<T>, a: T, b: T) {
    exists i, j :: 0 <= i < j < |s| && s[i] == a && s[j] == b
  }
}
