/** The brand screen (components/management/BrandManagement.tsx): the
    registry of brands with their contacts, the form that registers a brand
    (optionally filled from a business-registration certificate read by an
    OCR service), the edit dialog with its contact form, the name search, the
    certificate download name, and the CSV export and JSON import. */
module BrandManagement {
  import opened Types
  import opened Seqs
  import opened Text
  import opened Csv
  import opened FileImport

  // ---- Values the screen works with ----

  /** The new-brand form. */
  datatype NewBrandForm = NewBrandForm(
    name: string,
    address: string,
    businessNumber: string,
    mainPhoneNumber: string,
    websiteUrl: string,
    certificate: Option<string>)

  const BlankBrandForm: NewBrandForm := NewBrandForm("", "", "", "", "", None)

  /** The contact form: a contact without its id. */
  datatype ContactDraft = ContactDraft(name: string, phone: string, email: string, category: ContactCategory)

  const BlankContact: ContactDraft := ContactDraft("", "", "", Executive)

  /** What the OCR service returned; each field may be missing. */
  datatype OcrResult = OcrResult(brandName: Option<string>, address: Option<string>, businessNumber: Option<string>)

  /** How reading a certificate file ended: the file could not be read, the
      OCR call failed after the file was read as a data URL, or both worked. */
  datatype CertificateUpload =
    | ReadFailed
    | OcrFailed(dataUrl: string)
    | Extracted(dataUrl: string, result: OcrResult)

  datatype BrandFormField = FormName | FormAddress | FormBusinessNumber | FormMainPhone | FormWebsite

  /** The inputs of the edit dialog, by their `name` attribute. */
  datatype BrandField = Name | Address | BusinessRegistrationNumber | MainPhoneNumber | WebsiteUrl

  datatype ContactField = ContactName | ContactPhone | ContactEmail

  function WithFormField(f: NewBrandForm, field: BrandFormField, v: string): NewBrandForm {
    match field
    case FormName => f.(name := v)
    case FormAddress => f.(address := v)
    case FormBusinessNumber => f.(businessNumber := v)
    case FormMainPhone => f.(mainPhoneNumber := v)
    case FormWebsite => f.(websiteUrl := v)
  }

  function WithBrandField(b: Brand, field: BrandField, v: string): Brand {
    match field
    case Name => b.(name := v)
    case Address => b.(address := Some(v))
    case BusinessRegistrationNumber => b.(businessRegistrationNumber := Some(v))
    case MainPhoneNumber => b.(mainPhoneNumber := Some(v))
    case WebsiteUrl => b.(websiteUrl := Some(v))
  }

  function WithContactField(d: ContactDraft, field: ContactField, v: string): ContactDraft {
    match field
    case ContactName => d.(name := v)
    case ContactPhone => d.(phone := v)
    case ContactEmail => d.(email := v)
  }

  /** `x || fallback` for an optional string. */
  function OrElse(x: Option<string>, fallback: string): string {
    if Truthy(x) then x.value else fallback
  }

  // ---- Registering a brand ----

  /** The brand `handleAddBrand` creates: trimmed fields, no contacts, and the
      certificate only if one was loaded. */
  function NewBrand(f: NewBrandForm, stamp: nat): Brand {
    Brand("brand-" + NatToString(stamp), Trim(f.name),
          Some(Trim(f.address)), Some(Trim(f.businessNumber)), Some(Trim(f.mainPhoneNumber)),
          Some(Trim(f.websiteUrl)),
          if Truthy(f.certificate) then f.certificate else None,
          [])
  }

  /** A new brand is identified by its creation stamp; its name is the form's
      name without surrounding white space, and is never blank; each other
      text field is the form's, trimmed, and trimming it again changes
      nothing; the brand starts without contacts. */
  lemma NewBrandFacts(f: NewBrandForm, stamp: nat)
    requires Trim(f.name) != ""
    ensures NewBrand(f, stamp).id == "brand-" + NatToString(stamp)
    ensures NewBrand(f, stamp).name == Trim(f.name) && Trim(NewBrand(f, stamp).name) == NewBrand(f, stamp).name
    ensures NewBrand(f, stamp).name != "" && NewBrand(f, stamp).contacts == []
    ensures NewBrand(f, stamp).address == Some(Trim(f.address))
    ensures NewBrand(f, stamp).businessRegistrationNumber == Some(Trim(f.businessNumber))
    ensures NewBrand(f, stamp).mainPhoneNumber == Some(Trim(f.mainPhoneNumber))
    ensures NewBrand(f, stamp).websiteUrl == Some(Trim(f.websiteUrl))
    ensures Trim(NewBrand(f, stamp).address.value) == NewBrand(f, stamp).address.value
    ensures Trim(NewBrand(f, stamp).businessRegistrationNumber.value) == NewBrand(f, stamp).businessRegistrationNumber.value
    ensures Trim(NewBrand(f, stamp).mainPhoneNumber.value) == NewBrand(f, stamp).mainPhoneNumber.value
    ensures Trim(NewBrand(f, stamp).websiteUrl.value) == NewBrand(f, stamp).websiteUrl.value
    ensures NewBrand(f, stamp).certificateImage == if Truthy(f.certificate) then f.certificate else None
  {
    TrimIdempotent(f.name);
    TrimIdempotent(f.address);
    TrimIdempotent(f.businessNumber);
    TrimIdempotent(f.mainPhoneNumber);
    TrimIdempotent(f.websiteUrl);
  }

  /** The new-brand form after a certificate upload: the OCR fields are
      cleared first, then filled from what the service returned. */
  function AfterUpload(f: NewBrandForm, u: CertificateUpload): (r: NewBrandForm)
    ensures r.mainPhoneNumber == f.mainPhoneNumber && r.websiteUrl == f.websiteUrl
    ensures u.ReadFailed? ==> r == f.(name := "", address := "", businessNumber := "", certificate := None)
    ensures !u.ReadFailed? ==> r.certificate == Some(u.dataUrl)
    ensures u.OcrFailed? ==> r == f.(name := "", address := "", businessNumber := "", certificate := Some(u.dataUrl))
    ensures u.Extracted? ==> r.name == OrElse(u.result.brandName, "") && r.address == OrElse(u.result.address, "") &&
                             r.businessNumber == OrElse(u.result.businessNumber, "")
  {
    var cleared := f.(name := "", address := "", businessNumber := "", certificate := None);
    match u
    case ReadFailed => cleared
    case OcrFailed(url) => cleared.(certificate := Some(url))
    case Extracted(url, res) =>
      cleared.(certificate := Some(url), name := res.brandName.GetOr(""),
               address := res.address.GetOr(""), businessNumber := res.businessNumber.GetOr(""))
  }

  /** The dialog's OCR rule: with the user's consent each extracted field
      replaces the brand's only when it is non-empty; the certificate image
      is taken either way. */
  function MergeOcr(b: Brand, dataUrl: string, res: OcrResult, confirmed: bool): (r: Brand)
    ensures r.id == b.id && r.contacts == b.contacts && r.certificateImage == Some(dataUrl)
    ensures r.mainPhoneNumber == b.mainPhoneNumber && r.websiteUrl == b.websiteUrl
    ensures r.name == if confirmed && Truthy(res.brandName) then res.brandName.value else b.name
    ensures r.address == if confirmed && Truthy(res.address) then res.address else b.address
    ensures r.businessRegistrationNumber ==
              if confirmed && Truthy(res.businessNumber) then res.businessNumber else b.businessRegistrationNumber
  {
    if confirmed then
      b.(name := OrElse(res.brandName, b.name),
         address := if Truthy(res.address) then res.address else b.address,
         businessRegistrationNumber := if Truthy(res.businessNumber) then res.businessNumber else b.businessRegistrationNumber,
         certificateImage := Some(dataUrl))
    else b.(certificateImage := Some(dataUrl))
  }

  /** Merging a result with nothing in it only attaches the image. */
  lemma MergeEmptyOcr(b: Brand, dataUrl: string, confirmed: bool)
    ensures MergeOcr(b, dataUrl, OcrResult(None, None, None), confirmed) == b.(certificateImage := Some(dataUrl))
  {
  }

  // ---- Contacts ----

  function ContactOf(d: ContactDraft, id: string): BrandContact {
    BrandContact(id, d.name, d.phone, d.email, d.category)
  }

  /** `contacts.map(c => c.id === id ? { ...c, ...form } : c)`. */
  function EditContacts(cs: seq<BrandContact>, id: string, d: ContactDraft): (r: seq<BrandContact>)
    ensures |r| == |cs|
    ensures forall i :: 0 <= i < |cs| ==> r[i] == if cs[i].id == id then ContactOf(d, cs[i].id) else cs[i]
  {
    if cs == [] then []
    else [if cs[0].id == id then ContactOf(d, cs[0].id) else cs[0]] + EditContacts(cs[1..], id, d)
  }

  /** The brand after `handleContactSubmit`: the contact being edited takes
      the form's fields, or the form is appended as a new contact. */
  function SubmitContact(b: Brand, d: ContactDraft, editing: Option<string>, stamp: nat): Brand {
    if Truthy(editing) then b.(contacts := EditContacts(b.contacts, editing.value, d))
    else b.(contacts := b.contacts + [ContactOf(d, "contact-" + NatToString(stamp))])
  }

  /** Editing a contact keeps every contact's id and the list's length, and
      changes no contact with another id. */
  lemma EditContactsKeepsIds(cs: seq<BrandContact>, id: string, d: ContactDraft)
    ensures Keys(EditContacts(cs, id, d), ContactId) == Keys(cs, ContactId)
    ensures forall c :: c in cs && c.id != id ==> c in EditContacts(cs, id, d)
    ensures forall c :: c in EditContacts(cs, id, d) && c.id == id ==> c == ContactOf(d, id)
  {
    var r := EditContacts(cs, id, d);
    KeysPointwise(cs, r, ContactId);
    forall c | c in cs && c.id != id ensures c in r {
      var i :| 0 <= i < |cs| && cs[i] == c;
      assert r[i] == c;
    }
  }

  /** The brand saved by `handleSaveBrand`: a contact typed into the form but
      not submitted is added, unless an existing contact is being edited. */
  function WithPendingContact(b: Brand, d: ContactDraft, editing: Option<string>, stamp: nat): (r: Brand)
    ensures Trim(d.name) != "" && !Truthy(editing) ==>
              r == b.(contacts := b.contacts + [ContactOf(d, "contact-" + NatToString(stamp))])
    ensures !(Trim(d.name) != "" && !Truthy(editing)) ==> r == b
  {
    if Trim(d.name) != "" && !Truthy(editing) then SubmitContact(b, d, editing, stamp) else b
  }

  /** Saving never loses a contact, and adds at most one. */
  lemma PendingContactAddsAtMostOne(b: Brand, d: ContactDraft, editing: Option<string>, stamp: nat)
    ensures var r := WithPendingContact(b, d, editing, stamp);
      && r.id == b.id
      && b.contacts <= r.contacts
      && |r.contacts| <= |b.contacts| + 1
      && (|r.contacts| == |b.contacts| + 1 <==> Trim(d.name) != "" && !Truthy(editing))
  {
  }

  // ---- Search and certificate download ----

  /** Whether a brand's lower-cased name contains the (lower-cased) query. */
  function NameContains(lowerQuery: string): Brand -> bool {
    (b: Brand) => Contains(ToLower(b.name), lowerQuery)
  }

  /** The brands whose lower-cased name contains the lower-cased query, in
      list order; an empty query finds nothing. */
  function SearchBrands(bs: seq<Brand>, q: string): (r: seq<Brand>)
    ensures |r| <= |bs|
    ensures q == "" ==> r == []
    ensures forall b :: b in r <==> b in bs && q != "" && Contains(ToLower(b.name), ToLower(q))
  {
    if q == [] then [] else Filter(bs, NameContains(ToLower(q)))
  }

  /** The search ignores the case of the query: lower-casing it first finds
      the same brands, in the same order. */
  lemma SearchIgnoresQueryCase(bs: seq<Brand>, q: string)
    ensures SearchBrands(bs, ToLower(q)) == SearchBrands(bs, q)
  {
    ToLowerIdempotent(q);
  }

  /** The search keeps the list's order: it distributes over concatenation. */
  lemma SearchConcat(a: seq<Brand>, b: seq<Brand>, q: string)
    ensures SearchBrands(a + b, q) == SearchBrands(a, q) + SearchBrands(b, q)
  {
    if q != [] {
      FilterConcat(a, b, NameContains(ToLower(q)));
    }
  }

  /** `\w` of a regular expression. */
  predicate IsWordChar(c: char) {
    'a' <= c <= 'z' || 'A' <= c <= 'Z' || '0' <= c <= '9' || c == '_'
  }

  const MimePrefix: string := "data:image/"

  /** The longest run of word characters at the start of `s`. */
  function WordRun(s: string): (r: string)
    ensures r <= s
    ensures forall i :: 0 <= i < |r| ==> IsWordChar(r[i])
    ensures |r| == |s| || !IsWordChar(s[|r|])
  {
    if s == [] || !IsWordChar(s[0]) then [] else [s[0]] + WordRun(s[1..])
  }

  /** The subtype captured when `/data:(image\/\w+);/` matches at index `i`. */
  function MatchAt(s: string, i: nat): (r: Option<string>)
    requires i <= |s|
    ensures r.Some? ==> |r.value| >= 1 && forall k :: 0 <= k < |r.value| ==> IsWordChar(r.value[k])
    ensures r.Some? ==> i + |MimePrefix| + |r.value| < |s| &&
                        s[i..i + |MimePrefix| + |r.value| + 1] == MimePrefix + r.value + ";"
  {
    if |s| - i >= |MimePrefix| && s[i..i + |MimePrefix|] == MimePrefix then
      var run := WordRun(s[i + |MimePrefix|..]);
      var end := i + |MimePrefix| + |run|;
      if |run| >= 1 && end < |s| && s[end] == ';' then
        assert s[i + |MimePrefix|..end] == run;
        assert s[i..end + 1] == s[i..i + |MimePrefix|] + s[i + |MimePrefix|..end] + [s[end]];
        Some(run)
      else None
    else None
  }

  /** The leftmost match at index `i` or later. */
  function FirstMatch(s: string, i: nat): (r: Option<string>)
    requires i <= |s|
    ensures r.Some? ==> exists j :: i <= j <= |s| && MatchAt(s, j) == r &&
                                    forall k :: i <= k < j ==> MatchAt(s, k).None?
    ensures r.None? ==> forall j :: i <= j <= |s| ==> MatchAt(s, j).None?
    decreases |s| - i
  {
    if MatchAt(s, i).Some? then MatchAt(s, i)
    else if i == |s| then None
    else FirstMatch(s, i + 1)
  }

  /** The file extension used for a certificate download: the image subtype
      named in the data URL, `png` when there is none. */
  function CertificateExtension(dataUrl: string): string {
    match FirstMatch(dataUrl, 0)
    case Some(sub) => sub
    case None => "png"
  }

  /** A data URL of the shape the browser produces yields its own subtype. */
  lemma ExtensionOfDataUrl(sub: string, rest: string)
    requires |sub| >= 1 && forall k :: 0 <= k < |sub| ==> IsWordChar(sub[k])
    ensures CertificateExtension(MimePrefix + sub + ";" + rest) == sub
  {
    var s := MimePrefix + sub + ";" + rest;
    var n := |MimePrefix|;
    assert s[0..n] == MimePrefix;
    assert s[n..] == sub + (";" + rest);
    WordRunOf(sub, ";" + rest);
    assert s[n + |sub|] == ';';
    assert MatchAt(s, 0) == Some(sub);
  }

  lemma {:induction false} WordRunOf(w: string, t: string)
    requires forall k :: 0 <= k < |w| ==> IsWordChar(w[k])
    requires t == [] || !IsWordChar(t[0])
    ensures WordRun(w + t) == w
  {
    if w != [] {
      assert (w + t)[1..] == w[1..] + t;
      WordRunOf(w[1..], t);
    } else {
      assert w + t == t;
    }
  }

  /** Text with no match falls back to `png`. */
  lemma ExtensionFallback(dataUrl: string)
    requires forall j :: 0 <= j <= |dataUrl| ==> MatchAt(dataUrl, j).None?
    ensures CertificateExtension(dataUrl) == "png"
  {
  }

  /** The file offered by `handleDownloadCertificate`, if the brand has an
      image: the image itself and its file name. */
  function CertificateDownload(b: Brand): (r: Option<(string, string)>)
    ensures r.Some? <==> Truthy(b.certificateImage)
    ensures r.Some? ==> r.value.0 == b.certificateImage.value
    ensures r.Some? ==> r.value.1 == b.name + "_사업자등록증." + CertificateExtension(b.certificateImage.value)
  {
    if Truthy(b.certificateImage) then
      Some((b.certificateImage.value, b.name + "_사업자등록증." + CertificateExtension(b.certificateImage.value)))
    else None
  }

  // ---- The CSV export ----

  const BrandHeader: seq<string> := [
    "brand_id", "brand_name", "contact_id", "contact_name", "contact_phone", "contact_email", "contact_category"]

  function ContactRow(b: Brand, c: BrandContact): seq<CsvValue> {
    [Str(b.id), Str(b.name), Str(c.id), Str(c.name), Str(c.phone), Str(c.email), Str(CategoryLabel(c.category))]
  }

  /** The line of a brand without contacts. */
  function BlankContactRow(b: Brand): seq<CsvValue> {
    [Str(b.id), Str(b.name), Str(""), Str(""), Str(""), Str(""), Str("")]
  }

  function ContactRows(b: Brand, cs: seq<BrandContact>): (r: seq<seq<CsvValue>>)
    ensures |r| == |cs|
    ensures forall i :: 0 <= i < |cs| ==> r[i] == ContactRow(b, cs[i])
  {
    if cs == [] then [] else [ContactRow(b, cs[0])] + ContactRows(b, cs[1..])
  }

  /** The lines one brand contributes. */
  function RowsOfBrand(b: Brand): seq<seq<CsvValue>> {
    if |b.contacts| == 0 then [BlankContactRow(b)] else ContactRows(b, b.contacts)
  }

  /** `brands.flatMap(...)`. */
  function BrandRows(bs: seq<Brand>): seq<seq<CsvValue>> {
    if bs == [] then [] else RowsOfBrand(bs[0]) + BrandRows(bs[1..])
  }

  /** The number of lines a brand contributes. */
  function LineCount(b: Brand): int {
    if |b.contacts| == 0 then 1 else |b.contacts|
  }

  /** The text of `brands_backup.csv`. */
  function BrandsCsv(bs: seq<Brand>): string {
    Document(BrandHeader, BrandRows(bs))
  }

  /** Every line has the seven fields of the header; a brand without
      contacts gives one line with empty contact fields, any other brand one
      line per contact, in order. */
  lemma RowsOfBrandShape(b: Brand)
    ensures |RowsOfBrand(b)| == LineCount(b)
    ensures forall row :: row in RowsOfBrand(b) ==> |row| == |BrandHeader| && row[0] == Str(b.id) && row[1] == Str(b.name)
    ensures |b.contacts| == 0 ==> RowsOfBrand(b) == [BlankContactRow(b)]
    ensures forall i :: 0 <= i < |b.contacts| ==> RowsOfBrand(b)[i] == ContactRow(b, b.contacts[i])
  {
    var rows := RowsOfBrand(b);
    forall row | row in rows ensures |row| == |BrandHeader| && row[0] == Str(b.id) && row[1] == Str(b.name) {
      var i :| 0 <= i < |rows| && rows[i] == row;
      if |b.contacts| != 0 {
        assert row == ContactRow(b, b.contacts[i]);
      }
    }
  }

  /** The export lists the brands in order: the rows of a concatenation are
      the rows of its parts, concatenated. */
  lemma {:induction false} BrandRowsConcat(a: seq<Brand>, b: seq<Brand>)
    ensures BrandRows(a + b) == BrandRows(a) + BrandRows(b)
  {
    if a != [] {
      assert (a + b)[1..] == a[1..] + b;
      BrandRowsConcat(a[1..], b);
    } else {
      assert a + b == b;
    }
  }

  /** The export has one line per contact, and one per brand without contacts. */
  lemma {:induction false} BrandRowsCount(bs: seq<Brand>)
    ensures |BrandRows(bs)| == SumOf(bs, LineCount)
  {
    if bs != [] {
      var b := bs[0];
      assert |RowsOfBrand(b)| == LineCount(b);
      assert BrandRows(bs) == RowsOfBrand(b) + BrandRows(bs[1..]);
      BrandRowsCount(bs[1..]);
      SumOfCons(b, bs[1..], LineCount);
      assert [b] + bs[1..] == bs;
    }
  }

  lemma {:induction false} BrandRowsWidth(bs: seq<Brand>)
    ensures forall row :: row in BrandRows(bs) ==> |row| == 7
  {
    if bs != [] {
      RowsOfBrandShape(bs[0]);
      BrandRowsWidth(bs[1..]);
    }
  }

  lemma BrandHeaderPlain()
    ensures forall i :: 0 <= i < |BrandHeader| ==> !NeedsQuoting(BrandHeader[i])
  {
    forall i, k | 0 <= i < |BrandHeader| && 0 <= k < |BrandHeader[i]|
      ensures !IsSpecial(BrandHeader[i][k])
    {
    }
  }

  /** Decoding the export gives the header, then the texts of every line. */
  lemma BrandsCsvRoundTrip(bs: seq<Brand>)
    ensures Decode(BrandsCsv(bs)) == Some([BrandHeader] + Table(BrandRows(bs)))
  {
    BrandHeaderPlain();
    BrandRowsWidth(bs);
    var rows := BrandRows(bs);
    assert NoEmptyRow(rows) by {
      forall i | 0 <= i < |rows| ensures |rows[i]| >= 1 {
        assert rows[i] in rows;
      }
    }
    DocumentRoundTrip(BrandHeader, rows);
  }

  // ---- The screen's state ----

  /** Everything the screen keeps in its state hooks. */
  datatype RegistryState = RegistryState(
    brands: seq<Brand>,
    newBrand: NewBrandForm,
    brandToEdit: Option<Brand>,
    editModalOpen: bool,
    contactForm: ContactDraft,
    editingContactId: Option<string>,
    searchQuery: string)

  class BrandRegistry {
    var brands: seq<Brand>
    var newBrand: NewBrandForm
    var brandToEdit: Option<Brand>
    var editModalOpen: bool
    var contactForm: ContactDraft
    var editingContactId: Option<string>
    var searchQuery: string

    function State(): RegistryState
      reads this
    {
      RegistryState(brands, newBrand, brandToEdit, editModalOpen, contactForm, editingContactId, searchQuery)
    }

    constructor (stored: seq<Brand>)
      ensures State() == RegistryState(stored, BlankBrandForm, None, false, BlankContact, None, "")
    {
      brands := stored;
      newBrand := BlankBrandForm;
      brandToEdit := None;
      editModalOpen := false;
      contactForm := BlankContact;
      editingContactId := None;
      searchQuery := "";
    }

    method ChangeNewBrandField(field: BrandFormField, v: string)
      modifies this
      ensures State() == old(State()).(newBrand := WithFormField(old(newBrand), field, v))
    {
      newBrand := WithFormField(newBrand, field, v);
    }

    /** `handleCertificateUpload` on the new-brand form. */
    method UploadCertificate(u: CertificateUpload)
      modifies this
      ensures State() == old(State()).(newBrand := AfterUpload(old(newBrand), u))
    {
      newBrand := AfterUpload(newBrand, u);
    }

    /** `handleAddBrand`: a blank name is refused and changes nothing;
        otherwise the new brand goes first and the form is cleared. */
    method AddBrand(stamp: nat) returns (added: bool)
      modifies this
      ensures added <==> Trim(old(newBrand).name) != ""
      ensures State() == if added then old(State()).(brands := [NewBrand(old(newBrand), stamp)] + old(brands),
                                                     newBrand := BlankBrandForm)
                         else old(State())
    {
      var form := newBrand;
      var b := NewBrand(form, stamp);
      added := Trim(form.name) != "";
      if added {
        brands := [b] + brands;
        newBrand := BlankBrandForm;
      }
    }

    /** `handleDeleteBrand`, once confirmed. */
    method DeleteBrand(id: string, confirmed: bool)
      modifies this
      ensures State() == if confirmed then old(State()).(brands := RemoveById(old(brands), BrandId, id))
                         else old(State())
    {
      if confirmed {
        brands := RemoveById(brands, BrandId, id);
      }
    }

    /** Opening the dialog on a deep copy of the brand. */
    method OpenEditModal(b: Brand)
      modifies this
      ensures State() == old(State()).(brandToEdit := Some(b), editModalOpen := true)
    {
      brandToEdit := Some(b);
      editModalOpen := true;
    }

    method CloseEditModal()
      modifies this
      ensures State() == old(State()).(brandToEdit := None, editModalOpen := false,
                                       contactForm := BlankContact, editingContactId := None)
    {
      editModalOpen := false;
      brandToEdit := None;
      editingContactId := None;
      contactForm := BlankContact;
    }

    /** `handleBrandFieldChange`. */
    method ChangeBrandField(field: BrandField, v: string)
      modifies this
      ensures old(brandToEdit).None? ==> State() == old(State())
      ensures old(brandToEdit).Some? ==>
                State() == old(State()).(brandToEdit := Some(WithBrandField(old(brandToEdit).value, field, v)))
    {
      if brandToEdit.Some? {
        brandToEdit := Some(WithBrandField(brandToEdit.value, field, v));
      }
    }

    /** `handleModalCertificateUpload`: on success the image is attached and,
        if the user agrees, the extracted fields merged in; on failure, or
        with no brand open, nothing changes. */
    method UploadModalCertificate(u: CertificateUpload, confirmed: bool)
      modifies this
      ensures !(old(brandToEdit).Some? && u.Extracted?) ==> State() == old(State())
      ensures old(brandToEdit).Some? && u.Extracted? ==>
                State() == old(State()).(brandToEdit := Some(MergeOcr(old(brandToEdit).value, u.dataUrl, u.result, confirmed)))
    {
      if brandToEdit.Some? && u.Extracted? {
        brandToEdit := Some(MergeOcr(brandToEdit.value, u.dataUrl, u.result, confirmed));
      }
    }

    /** `handleSaveBrand`: write the open brand, with any pending contact,
        back into the list by id, then close the dialog; with no brand open
        nothing changes. */
    method SaveBrand(stamp: nat)
      modifies this
      ensures old(brandToEdit).None? ==> State() == old(State())
      ensures old(brandToEdit).Some? ==>
                var final := WithPendingContact(old(brandToEdit).value, old(contactForm), old(editingContactId), stamp);
                State() == old(State()).(brands := ReplaceById(old(brands), BrandId, final),
                                         brandToEdit := None, editModalOpen := false,
                                         contactForm := BlankContact, editingContactId := None)
    {
      if brandToEdit.None? {
        return;
      }
      var final := WithPendingContact(brandToEdit.value, contactForm, editingContactId, stamp);
      brands := ReplaceById(brands, BrandId, final);
      CloseEditModal();
    }

    method ChangeContactField(field: ContactField, v: string)
      modifies this
      ensures State() == old(State()).(contactForm := WithContactField(old(contactForm), field, v))
    {
      contactForm := WithContactField(contactForm, field, v);
    }

    method ChangeContactCategory(c: ContactCategory)
      modifies this
      ensures State() == old(State()).(contactForm := old(contactForm).(category := c))
    {
      contactForm := contactForm.(category := c);
    }

    method CancelEditContact()
      modifies this
      ensures State() == old(State()).(contactForm := BlankContact, editingContactId := None)
    {
      editingContactId := None;
      contactForm := BlankContact;
    }

    /** `handleContactSubmit`: needs a name, a phone and an open brand; the
        changed brand is shown in the dialog and written into the list by id,
        and the contact form is cleared. Otherwise nothing changes. */
    method ContactSubmit(stamp: nat)
      modifies this
      ensures old(contactForm).name != "" && old(contactForm).phone != "" && old(brandToEdit).Some? ==>
                var updated := SubmitContact(old(brandToEdit).value, old(contactForm), old(editingContactId), stamp);
                State() == old(State()).(brands := ReplaceById(old(brands), BrandId, updated),
                                         brandToEdit := Some(updated),
                                         contactForm := BlankContact, editingContactId := None)
      ensures !(old(contactForm).name != "" && old(contactForm).phone != "" && old(brandToEdit).Some?) ==>
                State() == old(State())
    {
      if contactForm.name == "" || contactForm.phone == "" || brandToEdit.None? {
        return;
      }
      var updated := SubmitContact(brandToEdit.value, contactForm, editingContactId, stamp);
      brandToEdit := Some(updated);
      brands := ReplaceById(brands, BrandId, updated);
      CancelEditContact();
    }

    /** `startEditContact`: load a contact into the form for editing. */
    method StartEditContact(c: BrandContact)
      modifies this
      ensures State() == old(State()).(contactForm := ContactDraft(c.name, c.phone, c.email, c.category),
                                       editingContactId := Some(c.id))
    {
      editingContactId := Some(c.id);
      contactForm := ContactDraft(c.name, c.phone, c.email, c.category);
    }

    /** `removeContact`: drop the contact from the open brand and write the
        brand back into the list by id; with no brand open nothing changes. */
    method RemoveContact(contactId: string)
      modifies this
      ensures old(brandToEdit).None? ==> State() == old(State())
      ensures old(brandToEdit).Some? ==>
                var updated := old(brandToEdit).value.(contacts := RemoveById(old(brandToEdit).value.contacts, ContactId, contactId));
                State() == old(State()).(brands := ReplaceById(old(brands), BrandId, updated),
                                         brandToEdit := Some(updated))
    {
      if brandToEdit.Some? {
        var b := brandToEdit.value;
        var updated := b.(contacts := RemoveById(b.contacts, ContactId, contactId));
        brandToEdit := Some(updated);
        brands := ReplaceById(brands, BrandId, updated);
      }
    }

    method SetSearchQuery(q: string)
      modifies this
      ensures State() == old(State()).(searchQuery := q)
    {
      searchQuery := q;
    }

    /** `filteredBrandsForSearch`. */
    function SearchResults(): seq<Brand>
      reads this
    {
      SearchBrands(brands, searchQuery)
    }

    /** `handleFileChange`: restore the whole list from a JSON backup. */
    method Import(confirmed: bool, payload: Payload<Brand>) returns (notice: Notice)
      modifies this
      ensures State() == old(State()).(brands := ApplyImport(old(brands), confirmed, payload))
      ensures notice == ImportNotice(confirmed, payload)
    {
      brands := ApplyImport(brands, confirmed, payload);
      notice := ImportNotice(confirmed, payload);
    }

    /** `handleExportCsv`: the text of the downloaded file. */
    function ExportCsv(): string
      reads this
    {
      BrandsCsv(brands)
    }
  }

  /** Writing a brand back by id changes that brand only; the other brands,
      their order and the list's length stay as they were. */
  lemma WriteBackChangesOnlyThatBrand(bs: seq<Brand>, updated: Brand)
    ensures |ReplaceById(bs, BrandId, updated)| == |bs|
    ensures forall i :: 0 <= i < |bs| && bs[i].id != updated.id ==> ReplaceById(bs, BrandId, updated)[i] == bs[i]
    ensures forall i :: 0 <= i < |bs| && bs[i].id == updated.id ==> ReplaceById(bs, BrandId, updated)[i] == updated
  {
  }
}
