/** The found-item form: per-field validation with fixed messages, the
    whole-form check, the resolution of custom category and location, the
    image checks, and submission to the items store. */
module SubmitItemPage {
  import opened Wrappers
  import opened Text
  import Seqs
  import opened ItemsContext

  /** The form's fields, in the order `Object.keys(formData)` lists them. */
  datatype Field = Title | Category | Description | Location | DateFound | SubmittedBy | ContactEmail | ImageUrl

  function FieldOrder(): seq<Field> {
    [Title, Category, Description, Location, DateFound, SubmittedBy, ContactEmail, ImageUrl]
  }

  datatype FormData = FormData(
    title: string,
    category: string,
    description: string,
    location: string,
    dateFound: string,
    submittedBy: string,
    contactEmail: string,
    imageUrl: string)

  function EmptyForm(): FormData {
    FormData("", "", "", "", "", "", "", "")
  }

  function Value(form: FormData, f: Field): string {
    match f
    case Title => form.title
    case Category => form.category
    case Description => form.description
    case Location => form.location
    case DateFound => form.dateFound
    case SubmittedBy => form.submittedBy
    case ContactEmail => form.contactEmail
    case ImageUrl => form.imageUrl
  }

  function WithValue(form: FormData, f: Field, v: string): (r: FormData)
    ensures Value(r, f) == v
    ensures forall g :: g != f ==> Value(r, g) == Value(form, g)
  {
    match f
    case Title => form.(title := v)
    case Category => form.(category := v)
    case Description => form.(description := v)
    case Location => form.(location := v)
    case DateFound => form.(dateFound := v)
    case SubmittedBy => form.(submittedBy := v)
    case ContactEmail => form.(contactEmail := v)
    case ImageUrl => form.(imageUrl := v)
  }

  /** The title check: required, then at least 3 and at most 100 characters. */
  function TitleError(v: string): (r: Option<string>)
    ensures r.None? <==> !IsBlank(v) && 3 <= |v| <= 100
    ensures IsBlank(v) ==> r == Some("Item title is required")
  {
    if IsBlank(v) then Some("Item title is required")
    else if |v| < 3 then Some("Title must be at least 3 characters")
    else if |v| > 100 then Some("Title must be less than 100 characters")
    else None
  }

  /** The description check: required, then 10 to 500 characters. */
  function DescriptionError(v: string): (r: Option<string>)
    ensures r.None? <==> !IsBlank(v) && 10 <= |v| <= 500
    ensures IsBlank(v) ==> r == Some("Description is required")
  {
    if IsBlank(v) then Some("Description is required")
    else if |v| < 10 then Some("Please provide at least 10 characters")
    else if |v| > 500 then Some("Description must be less than 500 characters")
    else None
  }

  /** The name check: not blank, and at least two characters counting any
      surrounding whitespace. */
  function NameError(v: string): (r: Option<string>)
    ensures r.None? <==> !IsBlank(v) && |v| >= 2
  {
    if IsBlank(v) then Some("Your name is required")
    else if |v| < 2 then Some("Please enter your full name")
    else None
  }

  /** The date check on the day number `day` the text `v` stands for: a date
      is required and may not lie after `today`; there is no lower bound. */
  function DateError(v: string, day: int, today: int): (r: Option<string>)
    ensures r.None? <==> v != "" && day <= today
  {
    if v == "" then Some("Date found is required")
    else if day > today then Some("Date cannot be in the future")
    else None
  }

  predicate NoSpace(s: string) {
    forall k :: 0 <= k < |s| ==> !IsSpace(s[k])
  }

  /** The language of `/^[^\s@]+@[^\s@]+\.[^\s@]+$/`: no whitespace, a single
      `@` at `i` with something before it, and a `.` at `j` with something
      between the two and something after it. */
  predicate EmailShape(s: string, i: int, j: int) {
    && 0 < i && i + 1 < j && j + 1 < |s|
    && s[i] == '@' && s[j] == '.'
    && NoSpace(s)
    && forall k :: 0 <= k < |s| && s[k] == '@' ==> k == i
  }

  /** The email test as a scan: no whitespace, a first `@` that is not the
      first character and has no other `@` after it, and a `.` inside what
      follows it, neither first nor last there. */
  function IsValidEmail(s: string): bool {
    && NoSpace(s)
    && match Seqs.FindIndex(s, c => c == '@')
       case None => false
       case Some(i) =>
         var d := s[i + 1..];
         && i > 0 && '@' !in d
         && |d| >= 3 && '.' in d[1..|d| - 1]
  }

  /** The scan accepts exactly the strings the pattern matches. */
  lemma EmailValidIffShape(s: string)
    ensures IsValidEmail(s) <==> exists i, j :: EmailShape(s, i, j)
  {
    if IsValidEmail(s) {
      var i := Seqs.FindIndex(s, c => c == '@').value;
      var d := s[i + 1..];
      var k :| 0 <= k < |d[1..|d| - 1]| && d[1..|d| - 1][k] == '.';
      var j := i + 2 + k;
      assert s[j] == '.';
      assert forall m :: 0 <= m < |s| && s[m] == '@' ==> m == i;
      assert EmailShape(s, i, j);
    }
    if i, j :| EmailShape(s, i, j) {
      var f := Seqs.FindIndex(s, c => c == '@');
      assert f.Some?;
      assert f.value == i;
      var d := s[i + 1..];
      assert '@' !in d by {
        forall m | 0 <= m < |d| ensures d[m] != '@' {
          assert d[m] == s[i + 1 + m];
        }
      }
      assert d[1..|d| - 1][j - i - 2] == '.';
    }
  }

  /** The email check: required, then the pattern. */
  function EmailError(v: string): (r: Option<string>)
    ensures r.None? <==> !IsBlank(v) && IsValidEmail(v)
  {
    if IsBlank(v) then Some("Email is required")
    else if !IsValidEmail(v) then Some("Please enter a valid email address")
    else None
  }

  /** `validateField(name, value)`; `day` is the day number the date text
      stands for, `today` the current day. The image field has no check. */
  function FieldError(f: Field, v: string, day: int, today: int): Option<string> {
    match f
    case Title => TitleError(v)
    case Category => if v == "" then Some("Please select a category") else None
    case Description => DescriptionError(v)
    case Location => if v == "" then Some("Please select where you found the item") else None
    case DateFound => DateError(v, day, today)
    case SubmittedBy => NameError(v)
    case ContactEmail => EmailError(v)
    case ImageUrl => None
  }

  /** The error the form check records for field `f`: none for the image,
      which it skips, and the field's own check for the others. */
  function FormError(form: FormData, f: Field, day: int, today: int): Option<string> {
    if f == ImageUrl then None else FieldError(f, Value(form, f), day, today)
  }

  /** The form passes when no field has an error. */
  predicate FormValid(form: FormData, day: int, today: int) {
    forall f :: FormError(form, f, day, today).None?
  }

  /** A valid form has a title of 3 to 100 characters, a description of 10
      to 500, a name of at least 2, a date no later than today and an email
      of the required shape. */
  lemma ValidFormBounds(form: FormData, day: int, today: int)
    requires FormValid(form, day, today)
    ensures 3 <= |form.title| <= 100 && 10 <= |form.description| <= 500
    ensures form.category != "" && form.location != "" && |form.submittedBy| >= 2
    ensures form.dateFound != "" && day <= today
    ensures exists i, j :: EmailShape(form.contactEmail, i, j)
  {
    TextFieldsPass(form, day, today);
    OtherFieldsPass(form, day, today);
    EmailFieldPasses(form, day, today);
    EmailValidIffShape(form.contactEmail);
  }

  lemma TextFieldsPass(form: FormData, day: int, today: int)
    requires FormValid(form, day, today)
    ensures 3 <= |form.title| <= 100 && 10 <= |form.description| <= 500
  {
    assert FormError(form, Title, day, today).None?;
    assert FormError(form, Description, day, today).None?;
  }

  lemma OtherFieldsPass(form: FormData, day: int, today: int)
    requires FormValid(form, day, today)
    ensures form.category != "" && form.location != "" && |form.submittedBy| >= 2
    ensures form.dateFound != "" && day <= today
  {
    assert FormError(form, Category, day, today).None?;
    assert FormError(form, Location, day, today).None?;
    assert FormError(form, SubmittedBy, day, today).None?;
    assert FormError(form, DateFound, day, today).None?;
  }

  lemma EmailFieldPasses(form: FormData, day: int, today: int)
    requires FormValid(form, day, today)
    ensures IsValidEmail(form.contactEmail)
  {
    assert FormError(form, ContactEmail, day, today).None?;
  }

  lemma AllFieldsListed()
    ensures forall f :: f in FieldOrder()
  {
    forall f ensures f in FieldOrder() {
      match f
      case Title => assert FieldOrder()[0] == f;
      case Category => assert FieldOrder()[1] == f;
      case Description => assert FieldOrder()[2] == f;
      case Location => assert FieldOrder()[3] == f;
      case DateFound => assert FieldOrder()[4] == f;
      case SubmittedBy => assert FieldOrder()[5] == f;
      case ContactEmail => assert FieldOrder()[6] == f;
      case ImageUrl => assert FieldOrder()[7] == f;
    }
  }

  /** The loop of `validateForm`: walks `keys` in order, skipping the
      image, and records the message `check` gives for each other key. */
  method CollectErrors(keys: seq<Field>, check: Field -> Option<string>)
    returns (errors: map<Field, string>, isValid: bool)
    ensures forall f :: f in errors <==> f in keys && f != ImageUrl && check(f).Some?
    ensures forall f :: f in errors ==> errors[f] == check(f).value
    ensures isValid <==> errors == map[]
  {
    errors := map[];
    isValid := true;
    var n := 0;
    while n < |keys|
      invariant 0 <= n <= |keys|
      invariant forall f :: f in errors <==> f in keys[..n] && f != ImageUrl && check(f).Some?
      invariant forall f :: f in errors ==> errors[f] == check(f).value
      invariant isValid <==> errors == map[]
    {
      var key := keys[n];
      if key != ImageUrl {
        var error := check(key);
        if error.Some? {
          errors := errors[key := error.value];
          isValid := false;
        }
      }
      assert keys[..n + 1] == keys[..n] + [key];
      n := n + 1;
    }
    assert keys[..n] == keys;
    if !isValid {
      var f :| f in errors;
    }
  }

  /** `validateForm`: every field's check in key order, the image skipped;
      the form is valid when no error was recorded. */
  method ValidateForm(form: FormData, day: int, today: int) returns (errors: map<Field, string>, isValid: bool)
    ensures forall f :: f in errors <==> FormError(form, f, day, today).Some?
    ensures forall f :: f in errors ==> errors[f] == FormError(form, f, day, today).value
    ensures isValid <==> errors == map[]
    ensures isValid <==> FormValid(form, day, today)
  {
    AllFieldsListed();
    errors, isValid := CollectErrors(FieldOrder(), f => FieldError(f, Value(form, f), day, today));
    assert forall f :: f in errors ==> FormError(form, f, day, today).Some?;
  }

  const MaxImageBytes: nat := 5 * 1024 * 1024

  /** The upload checks, size first: the message shown, if any. */
  function ImageError(size: nat, mimeType: string): (r: Option<string>)
    ensures r.None? <==> size <= MaxImageBytes && IsPrefix("image/", mimeType)
    ensures size > MaxImageBytes ==> r == Some("Image size must be less than 5MB")
  {
    if size > MaxImageBytes then Some("Image size must be less than 5MB")
    else if !IsPrefix("image/", mimeType) then Some("Please upload an image file")
    else None
  }

  /** The value submitted for a field that offers "custom": the custom text
      when "custom" is selected, the selection otherwise. */
  function Resolve(selected: string, custom: string): (r: string)
    ensures selected == "custom" ==> r == custom
    ensures selected != "custom" ==> r == selected
  {
    if selected == "custom" then custom else selected
  }

  /** What `handleSubmit` did. */
  datatype Outcome = Invalid | BlankCustomCategory | BlankCustomLocation | Submitted

  /** The draft `addItem` receives. */
  function FinalDraft(form: FormData, customCategory: string, customLocation: string): ItemDraft {
    ItemDraft(form.title, Resolve(form.category, customCategory), form.description,
              Resolve(form.location, customLocation), form.dateFound, form.imageUrl,
              form.submittedBy, form.contactEmail)
  }

  /** The form's state. */
  class SubmitItemForm {
    var form: FormData
    var errors: map<Field, string>
    var touched: set<Field>
    var customCategory: string
    var customLocation: string

    constructor ()
      ensures form == EmptyForm() && errors == map[] && touched == {}
      ensures customCategory == "" && customLocation == ""
    {
      form := EmptyForm();
      errors := map[];
      touched := {};
      customCategory := "";
      customLocation := "";
    }

    /** Leaving a field marks it touched and shows its current error. */
    method HandleBlur(f: Field, day: int, today: int)
      modifies this
      ensures touched == old(touched) + {f}
      ensures var e := FieldError(f, Value(form, f), day, today);
              errors == if e.Some? then old(errors)[f := e.value] else old(errors) - {f}
      ensures form == old(form) && customCategory == old(customCategory) && customLocation == old(customLocation)
    {
      touched := touched + {f};
      var e := FieldError(f, Value(form, f), day, today);
      errors := if e.Some? then errors[f := e.value] else errors - {f};
    }

    /** Typing stores the value and, once the field was touched, refreshes
        its error; other fields' errors stay as they were. */
    method HandleChange(f: Field, v: string, day: int, today: int)
      modifies this
      ensures form == WithValue(old(form), f, v)
      ensures f !in old(touched) ==> errors == old(errors)
      ensures var e := FieldError(f, v, day, today);
              f in old(touched) ==> errors == if e.Some? then old(errors)[f := e.value] else old(errors) - {f}
      ensures touched == old(touched) && customCategory == old(customCategory) && customLocation == old(customLocation)
    {
      form := WithValue(form, f, v);
      if f in touched {
        var e := FieldError(f, v, day, today);
        errors := if e.Some? then errors[f := e.value] else errors - {f};
      }
    }

    /** `handleSubmit`: touches every field, validates, checks the custom
        texts, and only then adds the item, with the id and time given. */
    method HandleSubmit(store: ItemsProvider, day: int, today: int, id: string, now: int)
      returns (outcome: Outcome)
      modifies this, store
      ensures touched == set f | f in FieldOrder()
      ensures forall f :: f in errors <==> FormError(form, f, day, today).Some?
      ensures forall f :: f in errors ==> errors[f] == FormError(form, f, day, today).value
      ensures form == old(form)
      ensures customCategory == old(customCategory) && customLocation == old(customLocation)
      ensures outcome == Invalid <==> !FormValid(form, day, today)
      ensures outcome == BlankCustomCategory <==>
        FormValid(form, day, today) && form.category == "custom" && IsBlank(customCategory)
      ensures outcome == BlankCustomLocation <==>
        FormValid(form, day, today) && !(form.category == "custom" && IsBlank(customCategory))
        && form.location == "custom" && IsBlank(customLocation)
      ensures outcome == Submitted ==>
        store.items == [NewItem(FinalDraft(form, customCategory, customLocation), id, now)] + old(store.items)
      ensures outcome != Submitted ==> store.items == old(store.items)
      ensures store.claims == old(store.claims)
    {
      var keys := FieldOrder();
      var allTouched: set<Field> := {};
      var n := 0;
      while n < |keys|
        invariant 0 <= n <= |keys|
        invariant allTouched == set f | f in keys[..n]
      {
        assert keys[..n + 1] == keys[..n] + [keys[n]];
        allTouched := allTouched + {keys[n]};
        n := n + 1;
      }
      assert keys[..n] == keys;
      touched := allTouched;
      var ok;
      errors, ok := ValidateForm(form, day, today);
      if !ok {
        return Invalid;
      }
      var draft := FinalDraft(form, customCategory, customLocation);
      if form.category == "custom" && IsBlank(customCategory) {
        return BlankCustomCategory;
      }
      if form.location == "custom" && IsBlank(customLocation) {
        return BlankCustomLocation;
      }
      store.AddItem(draft, id, now);
      return Submitted;
    }
  }
}
