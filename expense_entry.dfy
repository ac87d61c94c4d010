/**
 The expense-entry form: the validation schema for the amount, the form's
 initial values, the first-match lookup of the chosen category, and the
 submit handler, which adds the amount to that category in place and then
 sends the category to the server.
 */
module ExpenseEntry {
  import opened Domain
  import opened AmountPattern

  /** The two fields of the form: the amount as typed, and the id of the
      category picked ("" while the placeholder entry is picked). */
  datatype FormValues = FormValues(sum: string, categoryId: string)

  /** The verdict of the schema on the amount field. */
  datatype Validation = Valid | Invalid(message: string)

  const INITIAL_VALUES := FormValues("0", "")

  /** The schema of the amount field: required, then the amount pattern.
      The form library hands an empty field to the schema as absent, so an
      empty amount gets "required" and the pattern test is skipped. */
  function ValidateSum(sum: string): (v: Validation)
    ensures v == Valid <==> InAmountLanguage(sum)
    ensures sum == "" ==> v == Invalid("required")
    ensures sum != "" && !InAmountLanguage(sum) ==> v == Invalid("enter a valid number")
  {
    if sum == "" then Invalid("required")
    else if MatchesAmount(sum) then Valid
    else Invalid("enter a valid number")
  }

  /** The form starts with the amount "0", which the schema accepts and
      which adds nothing, and with no category picked. */
  lemma InitialValuesValid()
    ensures INITIAL_VALUES.categoryId == ""
    ensures ValidateSum(INITIAL_VALUES.sum) == Valid
    ensures MatchesAmount(INITIAL_VALUES.sum) && AmountMillis(INITIAL_VALUES.sum) == 0
  {
    MillisSamples();
  }

  /** The schema's verdicts on sample inputs. */
  lemma ValidationSamples()
    ensures ValidateSum("12.5") == Valid
    ensures ValidateSum("") == Invalid("required")
    ensures ValidateSum("abc") == Invalid("enter a valid number")
    ensures ValidateSum("12.") == Invalid("enter a valid number")
  {
    AcceptedSamples();
    RejectedSamples();
  }

  /** The index of the first category at or after `from` whose id is `id`. */
  function FindFrom(cs: seq<Category>, id: string, from: nat): (r: Option<nat>)
    requires from <= |cs|
    ensures r.Some? ==> from <= r.value < |cs| && cs[r.value].id == id
    ensures r.Some? ==> forall j :: from <= j < r.value ==> cs[j].id != id
    ensures r.None? <==> forall j :: from <= j < |cs| ==> cs[j].id != id
    decreases |cs| - from
  {
    if from == |cs| then None
    else if cs[from].id == id then Some(from)
    else FindFrom(cs, id, from + 1)
  }

  /** The lookup of the submit handler: the first category, in list order,
      whose id equals `id`, or None when no category has that id. */
  function FindCategory(cs: seq<Category>, id: string): (r: Option<nat>)
    ensures r.Some? ==> r.value < |cs| && cs[r.value].id == id
    ensures r.Some? ==> forall j :: 0 <= j < r.value ==> cs[j].id != id
    ensures r.None? <==> forall j :: 0 <= j < |cs| ==> cs[j].id != id
  {
    FindFrom(cs, id, 0)
  }

  /** The form component with the state it reads and writes: the signed-in
      user (owned by the screen above it and replaced through `setUser`) and
      the error text shown under the form. */
  class ExpenseForm {
    var user: User
    var error: string

    constructor (signedIn: User)
      ensures user == signedIn && error == ""
    {
      user := signedIn;
      error := "";
    }

    /** The submit handler. The form library calls it only with values the
        schema accepts. `reply` is what the remote `changeCategory` call
        resolves to if the handler makes it; `request` is the call it makes.
        The amount is added to the matched category inside the user's own
        list before the call, so the addition stays there when the call
        fails. */
    method HandleFormSubmit(values: FormValues, reply: Reply) returns (request: Option<ChangeRequest>)
      requires ValidateSum(values.sum) == Valid
      modifies this
      // no category with that id: return early, with no call and no change
      ensures FindCategory(old(user).categories, values.categoryId).None? ==>
        request == None && user == old(user) && error == old(error)
      ensures FindCategory(old(user).categories, values.categoryId).Some? ==>
        var i := FindCategory(old(user).categories, values.categoryId).value;
        var before := old(user).categories[i];
        var after := before.(expenses := before.expenses + AmountMillis(values.sum));
        // the call carries the user's id and the first matching category,
        // with only its expenses moved on by the amount
        && request == Some(ChangeRequest(old(user).id, after))
        // success: the user is the one the server returned
        && (reply.Success? ==> user == reply.user && error == old(error))
        // failure: the user is kept, with the addition already made in place
        && (reply.Failure? ==>
              && user == old(user).(categories := old(user).categories[i := after])
              && error == (if reply.thrown.ErrorObject? then reply.thrown.message else old(error)))
    {
      var found := FindCategory(user.categories, values.categoryId);
      if found.None? {
        request := None;
        return;
      }
      var i := found.value;
      var category := user.categories[i];
      category := category.(expenses := category.expenses + AmountMillis(values.sum));
      user := user.(categories := user.categories[i := category]);
      request := Some(ChangeRequest(user.id, category));
      match reply
      case Success(updated) =>
        user := updated;
      case Failure(thrown) =>
        if thrown.ErrorObject? {
          error := thrown.message;
        }
    }
  }

  /** Recording 12.5 against a category holding 7.250 sends 19.750, and when
      the call fails the user's list keeps 19.750. */
  method RecordSample(c: Category, message: string) returns (sent: Option<ChangeRequest>, kept: nat)
    requires c.expenses == 7250
    ensures sent.Some? && sent.value.category == c.(expenses := 19750)
    ensures kept == 19750
  {
    var form := new ExpenseForm(User("u1", [c]));
    MillisSamples();
    sent := form.HandleFormSubmit(FormValues("12.5", c.id), Failure(ErrorObject(message)));
    kept := form.user.categories[0].expenses;
  }
}
