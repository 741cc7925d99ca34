/**
 * The sign-up page: the role chosen on the previous screen, the check of the
 * required fields, the profile metadata sent with the sign-up call, and the
 * loading flag around that call.
 */
module Signup {
  import opened Wrappers

  /** `(location.state?.role) || 'consumer'`: any non-empty role text is kept as is. */
  function SelectedRole(navRole: Option<string>): (r: string)
    ensures r != ""
    ensures navRole.None? || navRole.value == "" ==> r == "consumer"
    ensures navRole.Some? && navRole.value != "" ==> r == navRole.value
  {
    match navRole
    case Some(role) => if role == "" then "consumer" else role
    case None => "consumer"
  }

  /** The form's fields. */
  datatype SignupForm = SignupForm(name: string, email: string, phone: string, password: string, farmName: string)

  /** `!name || !email || !password`; phone and farm name are optional. */
  predicate MissingRequired(f: SignupForm)
  {
    f.name == "" || f.email == "" || f.password == ""
  }

  /** The profile data attached to the new account; `None` is `null`. */
  datatype Metadata = Metadata(
    fullName: string,
    phone: Option<string>,
    role: string,
    farmName: Option<string>,
    farmLocation: Option<string>)

  function MetadataOf(f: SignupForm, role: string): (m: Metadata)
    ensures m.fullName == f.name && m.role == role
    ensures m.phone.None? <==> f.phone == ""
    ensures m.phone.Some? ==> m.phone.value == f.phone
    ensures m.farmName.Some? <==> role == "farmer"
    ensures m.farmName.Some? ==> m.farmName.value == f.farmName
    ensures m.farmLocation.None?
  {
    Metadata(
      f.name,
      if f.phone == "" then None else Some(f.phone),
      role,
      if role == "farmer" then Some(f.farmName) else None,
      None)
  }

  /** The request handed to the sign-up call. */
  datatype SignupRequest = SignupRequest(email: string, password: string, data: Metadata)

  datatype Toast = MissingFields | SignupFailed(message: string) | AccountCreated

  /** The title each toast shows. */
  function ToastTitle(t: Toast): string
  {
    match t
    case MissingFields => "Missing fields"
    case SignupFailed(_) => "Signup failed"
    case AccountCreated => "Account created!"
  }

  /** What the handler does, in order. */
  datatype Effect = SetLoading(on: bool) | CallSignUp(request: SignupRequest) | ShowToast(toast: Toast)

  /**
   * How the awaited sign-up call ended: it returned, with the error it
   * reports or `None` on success, or its promise rejected, which nothing in
   * the handler catches.
   */
  datatype CallOutcome = Returned(error: Option<string>) | Rejected

  /** The effects of one submission. */
  function SignupEffects(f: SignupForm, role: string, outcome: CallOutcome): (e: seq<Effect>)
    ensures MissingRequired(f) ==> e == [ShowToast(MissingFields)]
    ensures !MissingRequired(f) ==>
              && |e| >= 2
              && e[0] == SetLoading(true)
              && e[1] == CallSignUp(SignupRequest(f.email, f.password, MetadataOf(f, role)))
    ensures !MissingRequired(f) && outcome.Rejected? ==> |e| == 2
    ensures !MissingRequired(f) && outcome.Returned? ==>
              && |e| == 4
              && e[2] == SetLoading(false)
              && e[3].ShowToast?
    ensures forall i :: 0 <= i < |e| && e[i].ShowToast? ==> i == |e| - 1
    ensures e[|e| - 1] == ShowToast(AccountCreated) <==> !MissingRequired(f) && outcome == Returned(None)
    ensures !MissingRequired(f) && outcome.Returned? && outcome.error.Some? ==>
              e[|e| - 1] == ShowToast(SignupFailed(outcome.error.value))
  {
    if MissingRequired(f) then [ShowToast(MissingFields)]
    else
      var request := SignupRequest(f.email, f.password, MetadataOf(f, role));
      match outcome
      case Rejected => [SetLoading(true), CallSignUp(request)]
      case Returned(error) =>
        var toast := match error case Some(msg) => SignupFailed(msg) case None => AccountCreated;
        [SetLoading(true), CallSignUp(request), SetLoading(false), ShowToast(toast)]
  }

  /** The loading flag after a run of effects that starts from `loading`. */
  function LoadingAfter(loading: bool, e: seq<Effect>): bool
    decreases |e|
  {
    if e == [] then loading
    else LoadingAfter(if e[0].SetLoading? then e[0].on else loading, e[1..])
  }

  /**
   * The sign-up call is made while loading is on. When the handler ends,
   * loading is as it was after an early return, stays on after a rejected
   * call, and is off otherwise.
   */
  lemma LoadingBracketsCall(f: SignupForm, role: string, outcome: CallOutcome, loading: bool)
    ensures var e := SignupEffects(f, role, outcome);
            && (forall i :: 0 <= i < |e| && e[i].CallSignUp? ==> LoadingAfter(loading, e[..i]))
            && LoadingAfter(loading, e) == (if MissingRequired(f) then loading else outcome.Rejected?)
  {
    var e := SignupEffects(f, role, outcome);
    if !MissingRequired(f) {
      assert e[..1] == [SetLoading(true)];
      assert LoadingAfter(loading, e[..1]) == LoadingAfter(true, []);
      var rest := e[1..];
      assert LoadingAfter(loading, e) == LoadingAfter(true, rest);
      assert LoadingAfter(true, rest) == LoadingAfter(true, rest[1..]);
      if outcome.Rejected? {
        assert rest[1..] == [];
      } else {
        assert LoadingAfter(true, rest[1..]) == LoadingAfter(false, rest[1..][1..]);
        assert LoadingAfter(false, rest[1..][1..]) == LoadingAfter(false, rest[1..][1..][1..]);
        assert rest[1..][1..][1..] == [];
      }
    } else {
      assert e[1..] == [];
    }
  }

  /** The page's state: the loading flag and the effects so far. */
  class SignupPage {
    var isLoading: bool
    var effects: seq<Effect>

    constructor()
      ensures !isLoading && effects == []
    {
      isLoading := false;
      effects := [];
    }

    method SetIsLoading(v: bool)
      modifies this
      ensures isLoading == v && effects == old(effects) + [SetLoading(v)]
    {
      isLoading := v;
      effects := effects + [SetLoading(v)];
    }

    /** `handleSignup`; how the sign-up call ends is a parameter. */
    method HandleSignup(f: SignupForm, navRole: Option<string>, outcome: CallOutcome)
      modifies this
      ensures effects == old(effects) + SignupEffects(f, SelectedRole(navRole), outcome)
      ensures isLoading == if MissingRequired(f) then old(isLoading) else outcome.Rejected?
    {
      if f.name == "" || f.email == "" || f.password == "" {
        effects := effects + [ShowToast(MissingFields)];
        return;
      }
      var role := SelectedRole(navRole);
      SetIsLoading(true);
      effects := effects + [CallSignUp(SignupRequest(f.email, f.password, MetadataOf(f, role)))];
      if outcome.Rejected? {
        // the rejection propagates out of the handler: no reset, no toast
        return;
      }
      SetIsLoading(false);
      var error := outcome.error;
      if error.Some? {
        effects := effects + [ShowToast(SignupFailed(error.value))];
        return;
      }
      effects := effects + [ShowToast(AccountCreated)];
    }
  }
}
