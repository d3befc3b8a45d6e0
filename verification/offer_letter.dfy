/**
 * The offer-letter screen (`OfferLater`): the signing gate and the state
 * of the sign button.  The signature pad is reduced to whether it holds
 * any ink; PDF export is outside the model.
 *
 * `Form` is the component state and `Step` the effect of one user action;
 * the class `OfferForm` keeps the same state in mutable fields and its
 * methods are proved to perform exactly those steps.
 */
module OfferLetter {

  /** The browser alert `handleSignOffer` raises. */
  datatype Alert = Accepted | Incomplete

  const SignLabel: string := "Sign & Accept Offer"
  const SignedLabel: string := "Offer Accepted \U{2713}"

  /** signatureName, signatureDate, whether the pad holds ink, isOfferSigned. */
  datatype Form = Form(name: string, date: string, hasInk: bool, signed: bool)

  const Initial: Form := Form("", "", false, false)

  /** The signing gate: a name, a date and ink on the pad are all needed. */
  predicate CanSign(f: Form) {
    f.name != "" && f.date != "" && f.hasInk
  }

  /** A user action on the form. */
  datatype Action = TypeName(text: string) | PickDate(text: string) | Stroke | Clear | Sign

  /**
   * The effect of one action.  Only Sign can set the flag, only through the
   * gate, and nothing clears it; Clear wipes the pad and nothing else.
   */
  function Step(f: Form, a: Action): (r: Form)
    ensures f.signed ==> r.signed
    ensures r.signed && !f.signed ==> a == Sign && CanSign(f)
    ensures a == Sign ==> r == f.(signed := f.signed || CanSign(f))
    ensures a == Clear ==> r == f.(hasInk := false)
  {
    match a
    case TypeName(text) => f.(name := text)
    case PickDate(text) => f.(date := text)
    case Stroke => f.(hasInk := true)
    case Clear => f.(hasInk := false)
    case Sign => if CanSign(f) then f.(signed := true) else f
  }

  function Run(f: Form, actions: seq<Action>): Form
    decreases |actions|
  {
    if actions == [] then f else Run(Step(f, actions[0]), actions[1..])
  }

  /** Once signed, no sequence of actions makes the offer unsigned. */
  lemma {:induction false} SignedIsPermanent(f: Form, actions: seq<Action>)
    requires f.signed
    ensures Run(f, actions).signed
    decreases |actions|
  {
    if actions != [] {
      SignedIsPermanent(Step(f, actions[0]), actions[1..]);
    }
  }

  /**
   * An unsigned offer that ends up signed was signed by a Sign action taken
   * when name, date and ink were all present.
   */
  lemma {:induction false} SignedOnlyThroughGate(f: Form, actions: seq<Action>)
    requires !f.signed && Run(f, actions).signed
    ensures exists k :: 0 <= k < |actions| && actions[k] == Sign && CanSign(Run(f, actions[..k]))
    decreases |actions|
  {
    var g := Step(f, actions[0]);
    if g.signed {
      assert actions[..0] == [];
      assert actions[0] == Sign && CanSign(Run(f, actions[..0]));
    } else {
      SignedOnlyThroughGate(g, actions[1..]);
      var k :| 0 <= k < |actions[1..]| && actions[1..][k] == Sign && CanSign(Run(g, actions[1..][..k]));
      assert actions[..k + 1][0] == actions[0];
      assert actions[..k + 1][1..] == actions[1..][..k];
      assert Run(f, actions[..k + 1]) == Run(g, actions[1..][..k]);
      assert actions[k + 1] == Sign;
    }
  }

  /** The sign button's label. */
  function ButtonLabel(signed: bool): (r: string)
    ensures r == SignedLabel <==> signed
    ensures r == SignLabel <==> !signed
  {
    if signed then SignedLabel else SignLabel
  }

  class OfferForm {
    var name: string      // signatureName
    var date: string      // signatureDate
    var hasInk: bool      // the signature pad is not empty
    var signed: bool      // isOfferSigned

    function State(): Form
      reads this
    {
      Form(name, date, hasInk, signed)
    }

    constructor ()
      ensures State() == Initial
    {
      name, date, hasInk, signed := "", "", false, false;
    }

    method SetName(text: string)
      modifies this`name
      ensures State() == Step(old(State()), TypeName(text))
    {
      name := text;
    }

    method SetDate(text: string)
      modifies this`date
      ensures State() == Step(old(State()), PickDate(text))
    {
      date := text;
    }

    /** A pen stroke on the signature pad. */
    method Draw()
      modifies this`hasInk
      ensures State() == Step(old(State()), Stroke)
    {
      hasInk := true;
    }

    /** `clearSignature`: only the pad is wiped. */
    method ClearSignature()
      modifies this`hasInk
      ensures State() == Step(old(State()), Clear)
    {
      hasInk := false;
    }

    /**
     * `handleSignOffer`: signs when all three fields are present, otherwise
     * asks for them and leaves the signed state as it was.
     */
    method SignOffer() returns (alert: Alert)
      modifies this`signed
      ensures State() == Step(old(State()), Sign)
      ensures alert == Accepted <==> CanSign(old(State()))
    {
      if name != "" && date != "" && hasInk {
        signed := true;
        alert := Accepted;
      } else {
        alert := Incomplete;
      }
    }

    /** The sign button is disabled once the offer is signed. */
    function ButtonDisabled(): (r: bool)
      reads this
      ensures r <==> State().signed
    {
      signed
    }
  }
}
