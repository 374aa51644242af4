/**
 * The contacts page (src/modules/admin/contacts/ContactsPage.jsx): the
 * status counters over a fetched page, paging, the add-contact guard, the
 * bulk-upload step machine and the import history's success rate.
 */
module ContactsPage {
  import opened Js

  /** A contact as the counters read it. */
  datatype Contact = Contact(phone: string, status: string)

  /** What `getContacts` answers; `None` parts are missing from the body. */
  datatype ContactsResponse = ContactsResponse(contacts: Option<seq<Contact>>, total: Option<nat>)

  /** The `stats` state. */
  datatype Stats = Stats(total: nat, valid: nat, invalid: nat, blocked: nat)

  /** The page size `limit`. */
  const Limit := 20

  /** `contacts.filter(c => c.status === status).length`. */
  function CountStatus(contacts: seq<Contact>, status: string): (n: nat)
    ensures n <= |contacts|
    ensures n == 0 <==> forall i :: 0 <= i < |contacts| ==> contacts[i].status != status
    ensures n == |contacts| <==> forall i :: 0 <= i < |contacts| ==> contacts[i].status == status
  {
    if contacts == [] then 0
    else
      var rest := CountStatus(contacts[1..], status);
      assert forall i :: 1 <= i < |contacts| ==> contacts[i] == contacts[1..][i - 1];
      (if contacts[0].status == status then 1 else 0) + rest
  }

  /** Contacts whose status is none of the three counted ones. */
  function CountOther(contacts: seq<Contact>): (n: nat)
    ensures n <= |contacts|
  {
    if contacts == [] then 0
    else (if contacts[0].status in {"valid", "invalid", "blocked"} then 0 else 1) + CountOther(contacts[1..])
  }

  /** Every contact falls in exactly one of the three counters or in none, so the counters add up to the page length minus the others. */
  lemma {:induction false} CountersPartitionPage(contacts: seq<Contact>)
    ensures CountStatus(contacts, "valid") + CountStatus(contacts, "invalid") + CountStatus(contacts, "blocked") + CountOther(contacts)
            == |contacts|
  {
    if contacts != [] {
      CountersPartitionPage(contacts[1..]);
    }
  }

  /** The counters never add up to more than the fetched page. */
  lemma CountersBoundedByPage(contacts: seq<Contact>)
    ensures CountStatus(contacts, "valid") + CountStatus(contacts, "invalid") + CountStatus(contacts, "blocked") <= |contacts|
  {
    CountersPartitionPage(contacts);
  }

  /** The contact list a response yields: `data.contacts || []`. */
  function ListOf(data: ContactsResponse): (r: seq<Contact>)
    ensures data.contacts.Some? ==> r == data.contacts.value
    ensures data.contacts.None? ==> r == []
  {
    if data.contacts.Some? then data.contacts.value else []
  }

  /** The stats set after a fetch: the counters cover only the page, the total is `data.total || contactsList.length`. */
  function StatsOf(data: ContactsResponse): (s: Stats)
    ensures s.valid == CountStatus(ListOf(data), "valid")
    ensures s.invalid == CountStatus(ListOf(data), "invalid")
    ensures s.blocked == CountStatus(ListOf(data), "blocked")
    ensures data.total.Some? && data.total.value != 0 ==> s.total == data.total.value
    ensures data.total.None? || data.total.value == 0 ==> s.total == |ListOf(data)|
  {
    var list := ListOf(data);
    Stats(if data.total.Some? && data.total.value != 0 then data.total.value else |list|,
          CountStatus(list, "valid"), CountStatus(list, "invalid"), CountStatus(list, "blocked"))
  }

  /** A reported total of zero is replaced by the page length, so a non-empty page never shows a zero total. */
  lemma ZeroTotalFallsBack(list: seq<Contact>)
    requires list != []
    ensures StatsOf(ContactsResponse(Some(list), Some(0))).total == |list| > 0
  {
  }

  /** The add-contact form `newContact`. */
  datatype NewContact = NewContact(phone: string, name: string)

  const EmptyContact := NewContact("", "")

  /** The form data sent by `createContact`: `name` is appended only when non-empty. */
  datatype ContactRequest = ContactRequest(phone: string, name: Option<string>)

  /** The request an add sends, if any: nothing for a blank phone. */
  function AddRequest(c: NewContact): (r: Option<ContactRequest>)
    ensures r.None? <==> IsBlank(c.phone)
    ensures r.Some? ==> r.value.phone == c.phone
    ensures r.Some? ==> (r.value.name.Some? <==> c.name != "")
    ensures r.Some? && r.value.name.Some? ==> r.value.name.value == c.name
  {
    TrimEmptyIffBlank(c.phone);
    if Trim(c.phone) == "" then None
    else Some(ContactRequest(c.phone, if c.name != "" then Some(c.name) else None))
  }

  /** A phone made only of spaces is never sent. */
  lemma SpacesOnlyPhoneNotSent(name: string)
    ensures AddRequest(NewContact("  ", name)).None?
  {
    assert IsBlank("  ");
  }

  /** The "All Contacts" tab. */
  class AllContactsTab {
    var contacts: seq<Contact>
    var stats: Stats
    /** The zero-based page index. */
    var page: nat
    var newContact: NewContact
    var showAddModal: bool

    constructor ()
      ensures contacts == [] && stats == Stats(0, 0, 0, 0) && page == 0
      ensures newContact == EmptyContact && !showAddModal
    {
      contacts, stats, page := [], Stats(0, 0, 0, 0), 0;
      newContact, showAddModal := EmptyContact, false;
    }

    /** The offset of the page asked for: `page * limit`. */
    function Offset(): (o: nat)
      reads this
      ensures o % Limit == 0 && o / Limit == page
    {
      page * Limit
    }

    /** The Next button is disabled when the fetched page is short. */
    predicate NextDisabled()
      reads this
    {
      |contacts| < Limit
    }

    /** A fetch that answered: the list and the stats are replaced. */
    method Loaded(data: ContactsResponse)
      modifies this
      ensures contacts == ListOf(data) && stats == StatsOf(data)
      ensures page == old(page) && newContact == old(newContact) && showAddModal == old(showAddModal)
    {
      contacts := ListOf(data);
      stats := StatsOf(data);
    }

    /** A fetch that threw: the list is emptied and the stats are kept. */
    method FetchFailed()
      modifies this
      ensures contacts == [] && stats == old(stats)
      ensures page == old(page) && newContact == old(newContact) && showAddModal == old(showAddModal)
    {
      contacts := [];
    }

    /** `setPage(p => Math.max(0, p - 1))`: the page never goes below zero. */
    method Previous()
      modifies this
      ensures old(page) == 0 ==> page == 0
      ensures old(page) > 0 ==> page == old(page) - 1
      ensures contacts == old(contacts) && stats == old(stats)
      ensures newContact == old(newContact) && showAddModal == old(showAddModal)
    {
      page := if page == 0 then 0 else page - 1;
    }

    /** A click on Next: it moves on only while the button is enabled. */
    method Next()
      modifies this
      ensures old(NextDisabled()) ==> page == old(page)
      ensures !old(NextDisabled()) ==> page == old(page) + 1
      ensures contacts == old(contacts) && stats == old(stats)
      ensures newContact == old(newContact) && showAddModal == old(showAddModal)
    {
      if !NextDisabled() {
        page := page + 1;
      }
    }

    /** Typing into the add form. */
    method EditNewContact(c: NewContact)
      modifies this
      ensures newContact == c
      ensures contacts == old(contacts) && stats == old(stats) && page == old(page) && showAddModal == old(showAddModal)
    {
      newContact := c;
    }

    /**
     * `handleAddContact`; `created` is whether the call succeeded. A blank
     * phone sends nothing; a success clears the form and closes the modal;
     * a failure keeps both.
     */
    method AddContact(created: bool) returns (sent: Option<ContactRequest>)
      modifies this
      ensures sent == AddRequest(old(newContact))
      ensures sent.Some? && created ==> newContact == EmptyContact && !showAddModal
      ensures sent.None? || !created ==> newContact == old(newContact) && showAddModal == old(showAddModal)
      ensures contacts == old(contacts) && stats == old(stats) && page == old(page)
    {
      sent := AddRequest(newContact);
      if sent.Some? && created {
        newContact, showAddModal := EmptyContact, false;
      }
    }
  }

  /** What `bulkImportContacts` answers, as the confirmation step shows it. */
  datatype ImportResult = ImportResult(success: int, duplicates: int, invalid: int)

  /** The file a drop accepts: a name ending in `.csv` or `.xlsx`, case-sensitively. */
  predicate AcceptedName(name: string)
  {
    EndsWith(name, ".csv") || EndsWith(name, ".xlsx")
  }

  /** The extension test is case-sensitive. */
  lemma UpperCaseExtensionRefused()
    ensures AcceptedName("contacts.csv") && AcceptedName("contacts.xlsx")
    ensures !AcceptedName("contacts.CSV")
  {
    assert "contacts.csv"[8..] == ".csv";
    assert "contacts.xlsx"[8..] == ".xlsx";
    assert "contacts.CSV"[8..] != ".csv";
    assert "contacts.CSV"[7..] != ".xlsx";
  }

  /** The "Upload" tab: steps 1 (file) to 4 (confirmation). */
  class UploadTab {
    var currentStep: nat
    /** The chosen file's name. */
    var file: Option<string>
    var uploadResult: Option<ImportResult>

    /** Steps past the first hold a file; the confirmation step holds a result. */
    predicate Valid()
      reads this
    {
      1 <= currentStep <= 4 &&
      (currentStep >= 2 ==> file.Some?) &&
      (currentStep == 4 ==> uploadResult.Some?)
    }

    constructor ()
      ensures Valid() && currentStep == 1 && file.None? && uploadResult.None?
    {
      currentStep, file, uploadResult := 1, None, None;
    }

    /** `handleDrop`: only a `.csv` or `.xlsx` file is taken, and it moves to step 2. */
    method HandleDrop(dropped: Option<string>)
      requires Valid()
      modifies this
      ensures Valid()
      ensures dropped.Some? && AcceptedName(dropped.value) ==> file == dropped && currentStep == 2
      ensures dropped.None? || !AcceptedName(dropped.value) ==> file == old(file) && currentStep == old(currentStep)
      ensures uploadResult == old(uploadResult)
    {
      if dropped.Some? && AcceptedName(dropped.value) {
        file := dropped;
        currentStep := 2;
      }
    }

    /** `handleFileSelect`: any selected file is taken, without the extension test. */
    method HandleFileSelect(selected: Option<string>)
      requires Valid()
      modifies this
      ensures Valid()
      ensures selected.Some? ==> file == selected && currentStep == 2
      ensures selected.None? ==> file == old(file) && currentStep == old(currentStep)
      ensures uploadResult == old(uploadResult)
    {
      if selected.Some? {
        file := selected;
        currentStep := 2;
      }
    }

    /** The Continue button of step 2. */
    method Continue()
      requires Valid() && currentStep == 2
      modifies this
      ensures Valid() && currentStep == 3
      ensures file == old(file) && uploadResult == old(uploadResult)
    {
      currentStep := 3;
    }

    /** The Back button of step 3. */
    method Back()
      requires Valid() && currentStep == 3
      modifies this
      ensures Valid() && currentStep == 2
      ensures file == old(file) && uploadResult == old(uploadResult)
    {
      currentStep := 2;
    }

    /**
     * `handleUpload`; `result` is the import's answer, `None` when the call
     * throws. Without a file nothing happens; a success records the result
     * and moves to step 4; a failure changes nothing.
     */
    method HandleUpload(result: Option<ImportResult>) returns (sent: Option<string>)
      requires Valid()
      modifies this
      ensures Valid()
      ensures sent == old(file) && file == old(file)
      ensures old(file).Some? && result.Some? ==> uploadResult == result && currentStep == 4
      ensures old(file).None? || result.None? ==> uploadResult == old(uploadResult) && currentStep == old(currentStep)
    {
      sent := file;
      if file.None? {
        return;
      }
      if result.Some? {
        uploadResult := result;
        currentStep := 4;
      }
    }

    /** `resetUpload`: back to step 1 with no file and no result. */
    method ResetUpload()
      modifies this
      ensures Valid() && currentStep == 1 && file.None? && uploadResult.None?
    {
      file, currentStep, uploadResult := None, 1, None;
    }
  }

  /**
   * `getSuccessRate`: 0 without records, else `Math.round(success / records * 100)`,
   * the nearest whole percentage with halves rounded up.
   */
  function SuccessRate(records: nat, success: nat): (r: nat)
    ensures records == 0 ==> r == 0
    ensures records > 0 ==> 2 * records * r <= 200 * success + records < 2 * records * (r + 1)
  {
    if records == 0 then 0 else (200 * success + records) / (2 * records)
  }

  /** A success count no larger than the record count gives at most 100%. */
  lemma RateAtMostHundred(records: nat, success: nat)
    requires success <= records
    ensures SuccessRate(records, success) <= 100
  {
    if records > 0 {
      var r := SuccessRate(records, success);
      if r > 100 {
        assert 2 * records * r >= 2 * records * 101 by {
          MulMonotone(2 * records, 101, r);
        }
      }
    }
  }

  lemma MulMonotone(k: nat, a: nat, b: nat)
    requires a <= b
    ensures k * a <= k * b
  {
  }

  /** All records imported is 100%, none is 0%, and one in eight (12.5%) rounds up to 13. */
  lemma RateExamples(records: nat)
    requires records > 0
    ensures SuccessRate(records, records) == 100
    ensures SuccessRate(records, 0) == 0
    ensures SuccessRate(8, 1) == 13
  {
    var full := SuccessRate(records, records);
    assert 2 * records * full <= 201 * records < 2 * records * (full + 1);
    RateUnique(records, full, 100, 200 * records + records);
  }

  /** The rounding inequalities pin the rate down. */
  lemma RateUnique(records: nat, a: nat, b: nat, n: nat)
    requires records > 0
    requires 2 * records * a <= n < 2 * records * (a + 1)
    requires 2 * records * b <= n < 2 * records * (b + 1)
    ensures a == b
  {
    if a < b {
      MulMonotone(2 * records, a + 1, b);
    } else if b < a {
      MulMonotone(2 * records, b + 1, a);
    }
  }
}
