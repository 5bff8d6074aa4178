/**
 * The seller's profile form: field updates (with nested bank-account
 * fields), the profile picture, the required-field check and the multipart
 * payload assembled on submit.
 */
module ProfileForm {
  import opened Common

  datatype BankAccount = BankAccount(accountNumber: string, ifscCode: string, accountHolderName: string)

  datatype ProfileFormData = ProfileFormData(
    name: string, shopName: string, phoneNumber: string, address: string,
    profilePicture: Option<UploadFile>, paymentId: string, aadharId: string,
    bankAccount: BankAccount, upiId: string, razorpayAccountId: string)

  // ----------------------------------------------------------------- changes

  datatype ProfileTextField = Name | ShopName | PhoneNumber | Address | PaymentId | AadharId | UpiId | RazorpayAccountId
  datatype BankField = AccountNumber | IfscCode | AccountHolderName

  /** The input events `handleChange` receives: a top-level field, or a `bankAccount.x` field. */
  datatype ProfileChange = FieldInput(field: ProfileTextField, value: string) | BankInput(bankField: BankField, value: string)

  function TextOf(f: ProfileFormData, field: ProfileTextField): string
  {
    match field
    case Name => f.name
    case ShopName => f.shopName
    case PhoneNumber => f.phoneNumber
    case Address => f.address
    case PaymentId => f.paymentId
    case AadharId => f.aadharId
    case UpiId => f.upiId
    case RazorpayAccountId => f.razorpayAccountId
  }

  function BankValue(b: BankAccount, field: BankField): string
  {
    match field
    case AccountNumber => b.accountNumber
    case IfscCode => b.ifscCode
    case AccountHolderName => b.accountHolderName
  }

  function SetText(f: ProfileFormData, field: ProfileTextField, v: string): ProfileFormData
  {
    match field
    case Name => f.(name := v)
    case ShopName => f.(shopName := v)
    case PhoneNumber => f.(phoneNumber := v)
    case Address => f.(address := v)
    case PaymentId => f.(paymentId := v)
    case AadharId => f.(aadharId := v)
    case UpiId => f.(upiId := v)
    case RazorpayAccountId => f.(razorpayAccountId := v)
  }

  function SetBank(b: BankAccount, field: BankField, v: string): BankAccount
  {
    match field
    case AccountNumber => b.(accountNumber := v)
    case IfscCode => b.(ifscCode := v)
    case AccountHolderName => b.(accountHolderName := v)
  }

  /** `handleChange`: exactly the named field, or the named sub-field of the bank account, takes the value. */
  function ApplyChange(f: ProfileFormData, c: ProfileChange): (r: ProfileFormData)
    ensures c.BankInput? ==> r.(bankAccount := f.bankAccount) == f
    ensures c.BankInput? ==> forall g :: BankValue(r.bankAccount, g) == (if g == c.bankField then c.value else BankValue(f.bankAccount, g))
    ensures c.FieldInput? ==> r.bankAccount == f.bankAccount && r.profilePicture == f.profilePicture
    ensures c.FieldInput? ==> forall g :: TextOf(r, g) == (if g == c.field then c.value else TextOf(f, g))
  {
    match c
    case FieldInput(field, v) => SetText(f, field, v)
    case BankInput(field, v) => f.(bankAccount := SetBank(f.bankAccount, field, v))
  }

  // ----------------------------------------------------------------- picture

  /** The preview beside the picture input: none, the stored picture's URL, or an object URL for a picked file. */
  datatype PicturePreview = NoPreview | StoredPicture(url: string) | ObjectPicture(file: UploadFile)

  /** What `handleImageChange` decides about the first picked file. */
  datatype PictureDecision = NoFile | WrongType | TooLarge | Accept(file: UploadFile)

  const MaxPictureSize: nat := 5 * MiB

  function DecidePicture(file: Option<UploadFile>): (d: PictureDecision)
    ensures d.Accept? <==> file.Some? && IsImageType(file.value) && file.value.size <= MaxPictureSize
    ensures d.Accept? ==> d.file == file.value
    ensures d == NoFile <==> file.None?
  {
    if file.None? then NoFile
    else if !IsImageType(file.value) then WrongType
    else if file.value.size > MaxPictureSize then TooLarge
    else Accept(file.value)
  }

  // ------------------------------------------------------------------ submit

  datatype ProfileError = MissingRequiredFields

  /** name, shopName, phoneNumber and address are all non-empty. */
  predicate RequiredFilled(f: ProfileFormData)
  {
    f.name != "" && f.shopName != "" && f.phoneNumber != "" && f.address != ""
  }

  /** A value of the form object, as `Object.entries` yields it. */
  datatype FieldValue = Text(text: string) | Picture(picture: Option<UploadFile>) | Bank(account: BankAccount)

  /** A part of the multipart body; the bank account goes as its JSON text. */
  datatype Part = TextPart(text: string) | FilePart(file: UploadFile) | BankJson(account: BankAccount)

  /** The form object's entries in its declaration order. */
  function Entries(f: ProfileFormData): (r: seq<(string, FieldValue)>)
    ensures |r| == 10
    ensures r[4] == ("profilePicture", Picture(f.profilePicture)) && r[7] == ("bankAccount", Bank(f.bankAccount))
    ensures forall i :: 0 <= i < |r| && i != 4 && i != 7 ==> r[i].1.Text?
  {
    [ ("name", Text(f.name)), ("shopName", Text(f.shopName)), ("phoneNumber", Text(f.phoneNumber)),
      ("address", Text(f.address)), ("profilePicture", Picture(f.profilePicture)),
      ("paymentId", Text(f.paymentId)), ("aadharId", Text(f.aadharId)), ("bankAccount", Bank(f.bankAccount)),
      ("upiId", Text(f.upiId)), ("razorpayAccountId", Text(f.razorpayAccountId)) ]
  }

  /** JavaScript truthiness of a form value: a non-empty string, a picked file, any object. */
  predicate Truthy(v: FieldValue)
  {
    match v
    case Text(s) => s != ""
    case Picture(p) => p.Some?
    case Bank(_) => true
  }

  predicate HasBankDetails(b: BankAccount)
  {
    b.accountNumber != "" || b.ifscCode != "" || b.accountHolderName != ""
  }

  /** The part `formData.append(key, value)` adds for a value; a bank account never reaches it. */
  function AsPart(v: FieldValue): Part
  {
    match v
    case Text(s) => TextPart(s)
    case Picture(p) => if p.Some? then FilePart(p.value) else TextPart("")
    case Bank(b) => BankJson(b)
  }

  /** What the loop body appends for one entry. */
  function PartsOf(key: string, v: FieldValue): (r: seq<(string, Part)>)
    ensures |r| <= 1
    ensures forall p :: p in r ==> p.0 == key
    ensures key != "bankAccount" ==> r == (if Truthy(v) then [(key, AsPart(v))] else [])
  {
    if key == "profilePicture" && Truthy(v) then [(key, AsPart(v))]
    else if key == "bankAccount" then
      if v.Bank? && HasBankDetails(v.account) then [("bankAccount", BankJson(v.account))] else []
    else if Truthy(v) then [(key, AsPart(v))]
    else []
  }

  /** The body after the loop has visited entries in order. */
  function Payload(entries: seq<(string, FieldValue)>): (r: seq<(string, Part)>)
    ensures |r| <= |entries|
    ensures forall p :: p in r ==> exists i :: 0 <= i < |entries| && p in PartsOf(entries[i].0, entries[i].1)
  {
    if entries == [] then []
    else Payload(entries[..|entries| - 1]) + PartsOf(entries[|entries| - 1].0, entries[|entries| - 1].1)
  }

  /** The number of parts under key. */
  function Count(parts: seq<(string, Part)>, key: string): nat
  {
    if parts == [] then 0 else (if parts[0].0 == key then 1 else 0) + Count(parts[1..], key)
  }

  lemma {:induction false} CountConcat(a: seq<(string, Part)>, b: seq<(string, Part)>, key: string)
    ensures Count(a + b, key) == Count(a, key) + Count(b, key)
  {
    if a == [] {
      assert a + b == b;
    } else {
      assert (a + b)[1..] == a[1..] + b;
      CountConcat(a[1..], b, key);
    }
  }

  /** An entry only ever adds parts under its own key, and at most one. */
  lemma PartsOfKey(key: string, v: FieldValue, other: string)
    ensures |PartsOf(key, v)| <= 1
    ensures Count(PartsOf(key, v), other) == (if other == key then |PartsOf(key, v)| else 0)
  {
  }

  predicate DistinctKeys(entries: seq<(string, FieldValue)>)
  {
    forall i, j :: 0 <= i < j < |entries| ==> entries[i].0 != entries[j].0
  }

  /** With distinct keys, the body holds as many parts under an entry's key as that entry adds. */
  lemma {:induction false} CountOfEntry(entries: seq<(string, FieldValue)>, i: int)
    requires DistinctKeys(entries) && 0 <= i < |entries|
    ensures Count(Payload(entries), entries[i].0) == |PartsOf(entries[i].0, entries[i].1)|
    decreases |entries|
  {
    var n := |entries| - 1;
    var init := entries[..n];
    var key := entries[i].0;
    CountConcat(Payload(init), PartsOf(entries[n].0, entries[n].1), key);
    PartsOfKey(entries[n].0, entries[n].1, key);
    if i < n {
      CountOfEntry(init, i);
    } else {
      KeyAbsent(init, key);
    }
  }

  /** No part is added under a key that no entry has. */
  lemma {:induction false} KeyAbsent(entries: seq<(string, FieldValue)>, key: string)
    requires forall j :: 0 <= j < |entries| ==> entries[j].0 != key
    ensures Count(Payload(entries), key) == 0
    decreases |entries|
  {
    if entries != [] {
      var n := |entries| - 1;
      CountConcat(Payload(entries[..n]), PartsOf(entries[n].0, entries[n].1), key);
      PartsOfKey(entries[n].0, entries[n].1, key);
      KeyAbsent(entries[..n], key);
    }
  }

  /** The body holds the bank account's JSON exactly when it has a sub-field filled in. */
  lemma {:induction false} BankPartIffDetails(entries: seq<(string, FieldValue)>, b: BankAccount)
    requires ("bankAccount", Bank(b)) in entries
    ensures ("bankAccount", BankJson(b)) in Payload(entries) ==> HasBankDetails(b)
    ensures HasBankDetails(b) ==> ("bankAccount", BankJson(b)) in Payload(entries)
    decreases |entries|
  {
    var n := |entries| - 1;
    var p := Payload(entries[..n]);
    var last := PartsOf(entries[n].0, entries[n].1);
    assert Payload(entries) == p + last;
    if ("bankAccount", Bank(b)) in entries[..n] {
      BankPartIffDetails(entries[..n], b);
    } else {
      assert entries[n] == ("bankAccount", Bank(b));
      if ("bankAccount", BankJson(b)) in p {
        BankJsonOnlyFromBank(entries[..n], b);
      }
    }
  }

  /** A bank part in the body comes from a bank entry with the same account. */
  lemma {:induction false} BankJsonOnlyFromBank(entries: seq<(string, FieldValue)>, b: BankAccount)
    requires ("bankAccount", BankJson(b)) in Payload(entries)
    ensures ("bankAccount", Bank(b)) in entries && HasBankDetails(b)
    decreases |entries|
  {
    var n := |entries| - 1;
    var p := Payload(entries[..n]);
    if ("bankAccount", BankJson(b)) in p {
      BankJsonOnlyFromBank(entries[..n], b);
      assert entries[..n] <= entries;
    } else {
      assert entries[n] == ("bankAccount", Bank(b));
    }
  }

  /** Every part an entry adds is in the body. */
  lemma {:induction false} EntryPartsIn(entries: seq<(string, FieldValue)>, i: int)
    requires 0 <= i < |entries|
    ensures forall p :: p in PartsOf(entries[i].0, entries[i].1) ==> p in Payload(entries)
    decreases |entries|
  {
    var n := |entries| - 1;
    assert Payload(entries) == Payload(entries[..n]) + PartsOf(entries[n].0, entries[n].1);
    if i < n {
      EntryPartsIn(entries[..n], i);
      assert entries[..n][i] == entries[i];
    }
  }

  /** The profile form's ten keys are distinct. */
  lemma EntriesDistinct(f: ProfileFormData)
    ensures DistinctKeys(Entries(f))
  {
    var es := Entries(f);
    forall i, j | 0 <= i < j < |es| ensures es[i].0 != es[j].0 {
      if |es[i].0| == |es[j].0| {
        assert (i, j) == (1, 6) || (i, j) == (2, 7);
        assert es[i].0[0] != es[j].0[0];
      }
    }
  }

  /**
   * The payload rules: bankAccount appears once, as JSON, exactly when one of
   * its sub-fields is filled in; every other field appears once exactly when
   * its value is truthy, and otherwise not at all. The part a truthy field
   * appears with is its value as `append` takes it.
   */
  lemma PayloadRules(f: ProfileFormData)
    ensures Count(Payload(Entries(f)), "bankAccount") == (if HasBankDetails(f.bankAccount) then 1 else 0)
    ensures ("bankAccount", BankJson(f.bankAccount)) in Payload(Entries(f)) <==> HasBankDetails(f.bankAccount)
    ensures forall i :: 0 <= i < |Entries(f)| && Entries(f)[i].0 != "bankAccount" ==>
              Count(Payload(Entries(f)), Entries(f)[i].0) == (if Truthy(Entries(f)[i].1) then 1 else 0)
    ensures forall i :: 0 <= i < |Entries(f)| && Entries(f)[i].0 != "bankAccount" && Truthy(Entries(f)[i].1) ==>
              (Entries(f)[i].0, AsPart(Entries(f)[i].1)) in Payload(Entries(f))
  {
    var es := Entries(f);
    EntriesDistinct(f);
    CountOfEntry(es, 7);
    assert es[7] == ("bankAccount", Bank(f.bankAccount));
    BankPartIffDetails(es, f.bankAccount);
    forall i | 0 <= i < |es| && es[i].0 != "bankAccount"
      ensures Count(Payload(es), es[i].0) == (if Truthy(es[i].1) then 1 else 0)
    {
      CountOfEntry(es, i);
    }
    forall i | 0 <= i < |es| && es[i].0 != "bankAccount" && Truthy(es[i].1)
      ensures (es[i].0, AsPart(es[i].1)) in Payload(es)
    {
      EntryPartsIn(es, i);
      assert PartsOf(es[i].0, es[i].1) == [(es[i].0, AsPart(es[i].1))];
    }
  }

  /** The loop of `handleSubmit` that fills the FormData. */
  method AssemblePayload(f: ProfileFormData) returns (payload: seq<(string, Part)>)
    ensures payload == Payload(Entries(f))
  {
    var entries := Entries(f);
    payload := [];
    for i := 0 to |entries|
      invariant payload == Payload(entries[..i])
    {
      var (key, value) := entries[i];
      assert entries[..i + 1][..i] == entries[..i];
      if key == "profilePicture" && Truthy(value) {
        payload := payload + [(key, AsPart(value))];
      } else if key == "bankAccount" {
        if value.Bank? && HasBankDetails(value.account) {
          payload := payload + [("bankAccount", BankJson(value.account))];
        }
      } else if Truthy(value) {
        payload := payload + [(key, AsPart(value))];
      }
    }
    assert entries[..|entries|] == entries;
  }

  /** The profile dialog's state. */
  class ProfileFormView {
    var form: ProfileFormData
    var preview: PicturePreview

    constructor (form: ProfileFormData, preview: PicturePreview)
      requires form.profilePicture.None?
      ensures this.form == form && this.preview == preview
    {
      this.form := form;
      this.preview := preview;
    }

    method HandleChange(c: ProfileChange)
      modifies this
      ensures form == ApplyChange(old(form), c) && preview == old(preview)
    {
      form := ApplyChange(form, c);
    }

    /** `handleImageChange` on the first picked file, if any. */
    method HandleImageChange(file: Option<UploadFile>) returns (decision: PictureDecision)
      modifies this
      ensures decision == DecidePicture(file)
      ensures decision.Accept? ==> form == old(form).(profilePicture := Some(decision.file)) && preview == ObjectPicture(decision.file)
      ensures !decision.Accept? ==> form == old(form) && preview == old(preview)
    {
      decision := DecidePicture(file);
      if decision.Accept? {
        form := form.(profilePicture := Some(decision.file));
        preview := ObjectPicture(decision.file);
      }
    }

    method RemoveImage()
      modifies this
      ensures form == old(form).(profilePicture := None) && preview == NoPreview
    {
      form := form.(profilePicture := None);
      preview := NoPreview;
    }

    /** `handleSubmit` up to the request: the required check, then the body to send. */
    method HandleSubmit() returns (result: Result<seq<(string, Part)>, ProfileError>)
      ensures result.Err? <==> !RequiredFilled(form)
      ensures result.Ok? ==> result.value == Payload(Entries(form))
    {
      if form.name == "" || form.shopName == "" || form.phoneNumber == "" || form.address == "" {
        return Err(MissingRequiredFields);
      }
      var payload := AssemblePayload(form);
      result := Ok(payload);
    }
  }
}
