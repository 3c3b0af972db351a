/**
 * The consent screen: three boxes that start unticked, each flipped by a
 * tap; the respondent may proceed only once all three are ticked.
 */
module ConsentForm {

  datatype ConsentKey = DataCollection | DataSharing | DataRetention

  datatype Consents = Consents(dataCollection: bool, dataSharing: bool, dataRetention: bool) {
    function Get(k: ConsentKey): bool {
      match k
      case DataCollection => dataCollection
      case DataSharing => dataSharing
      case DataRetention => dataRetention
    }
  }

  const NoConsents := Consents(false, false, false)

  /** `{ ...prev, [key]: !prev[key] }`. */
  function Flip(c: Consents, k: ConsentKey): (r: Consents)
    ensures r.Get(k) == !c.Get(k)
    ensures forall k' :: k' != k ==> r.Get(k') == c.Get(k')
  {
    match k
    case DataCollection => c.(dataCollection := !c.dataCollection)
    case DataSharing => c.(dataSharing := !c.dataSharing)
    case DataRetention => c.(dataRetention := !c.dataRetention)
  }

  /** `Object.values(consents).every(Boolean)`. */
  predicate AllGiven(c: Consents) {
    c.dataCollection && c.dataSharing && c.dataRetention
  }

  /** The gate opens exactly when every box is ticked. */
  lemma AllGivenIff(c: Consents)
    ensures AllGiven(c) <==> forall k :: c.Get(k)
    ensures AllGiven(c) <==> c == Consents(true, true, true)
  {
    if !AllGiven(c) {
      if !c.dataCollection { assert !c.Get(DataCollection); }
      else if !c.dataSharing { assert !c.Get(DataSharing); }
      else { assert !c.Get(DataRetention); }
    }
  }

  /** Two taps on one box undo each other. */
  lemma FlipTwice(c: Consents, k: ConsentKey)
    ensures Flip(Flip(c, k), k) == c
  {
  }

  /** From the start, one tap on each box opens the gate, whatever the order. */
  lemma TickEachOnce(a: ConsentKey, b: ConsentKey, d: ConsentKey)
    requires a != b && b != d && a != d
    ensures AllGiven(Flip(Flip(Flip(NoConsents, a), b), d))
  {
    var c := Flip(Flip(Flip(NoConsents, a), b), d);
    forall k ensures c.Get(k) {
      assert k == a || k == b || k == d;
    }
    AllGivenIff(c);
  }

  class ConsentScreen {
    var consents: Consents

    constructor()
      ensures consents == NoConsents && !AllGiven(consents)
    {
      consents := NoConsents;
    }

    method ToggleConsent(k: ConsentKey)
      modifies this
      ensures consents == Flip(old(consents), k)
    {
      consents := Flip(consents, k);
    }

    /** The proceed button: it reports completion only when the gate is open. */
    method Proceed() returns (completed: bool)
      ensures completed <==> AllGiven(consents)
    {
      completed := AllGiven(consents);
    }
  }
}
