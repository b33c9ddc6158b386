/**
 * The directory of internal/data/mock_data.go: contacts, third-party profiles, providers and the
 * phone/email values providers can "find". Only the contacts are ever written after construction;
 * the other three maps are constant.
 */
module Data {
  import opened Wrappers
  import opened Models
  import opened Strings

  /** The phone and email a provider search may discover for a contact. */
  datatype FindableData = FindableData(phone: string, email: string)

  const ContactJohnDoe := "a1b2c3d4-e5f6-7890-abcd-ef1234567890"
  const ContactJaneSmith := "b2c3d4e5-f6a7-8901-bcde-f12345678901"
  const ContactBobJohnson := "c3d4e5f6-a7b8-9012-cdef-123456789012"
  const ContactAliceWilliams := "d4e5f6a7-b8c9-0123-def1-234567890123"

  const ProviderAcmeCorp := "e5f6a7b8-c9d0-1234-efab-345678901234"
  const ProviderTechCo := "f6a7b8c9-d0e1-2345-fabc-456789012345"
  const ProviderStartupDev := "a7b8c9d0-e1f2-3456-abcd-567890123456"
  const ProviderBigCorpInc := "b8c9d0e1-f2a3-4567-bcde-678901234567"
  const ProviderCloudSync := "c9d0e1f2-a3b4-5678-cdef-789012345678"
  const ProviderDataFlowSystems := "d0e1f2a3-b4c5-6789-defa-890123456789"

  /** The seeded contacts; their phone and email start empty. */
  function SeedContacts(): map<string, Contact> {
    map[
      ContactJohnDoe := Contact(ContactJohnDoe, "John", "Doe", "", "", "Acme Corp", "Software Engineer"),
      ContactJaneSmith := Contact(ContactJaneSmith, "Jane", "Smith", "", "", "TechCo", "Product Manager"),
      ContactBobJohnson := Contact(ContactBobJohnson, "Bob", "Johnson", "", "", "StartupDev", "CTO"),
      ContactAliceWilliams := Contact(ContactAliceWilliams, "Alice", "Williams", "", "", "BigCorp Inc", "Sales Director")
    ]
  }

  /** The seeded values providers can find. */
  function SeedEnrichmentData(): map<string, FindableData> {
    map[
      ContactJohnDoe := FindableData("+1-555-123-4567", "john.doe@example.com"),
      ContactJaneSmith := FindableData("+1-555-987-6543", "jane.smith@techco.io"),
      ContactBobJohnson := FindableData("+1-555-234-5678", "bob.johnson@startup.dev"),
      ContactAliceWilliams := FindableData("+1-555-456-7890", "alice.w@bigcorp.com")
    ]
  }

  /** The seeded third-party profiles, keyed by lower-cased full name. */
  function SeedThirdParty(): map<string, ThirdPartyInfo> {
    map[
      "john doe" := ThirdPartyInfo("John Doe", "https://linkedin.com/in/johndoe", "@johndoe_dev", "johndoe",
                                   "Passionate software engineer with 10+ years of experience", "San Francisco, CA",
                                   ["Go", "Python", "Kubernetes", "AWS"], ["Acme Corp", "Google", "Meta"]),
      "jane smith" := ThirdPartyInfo("Jane Smith", "https://linkedin.com/in/janesmith", "@janesmith_pm", "janesmith",
                                     "Product leader focused on developer tools", "New York, NY",
                                     ["Product Management", "Agile", "User Research"], ["TechCo", "Stripe", "Shopify"]),
      "bob johnson" := ThirdPartyInfo("Bob Johnson", "https://linkedin.com/in/bobjohnson", "", "bobjohnson",
                                      "Serial entrepreneur and tech leader", "Austin, TX",
                                      ["Leadership", "Architecture", "Fundraising"], ["StartupDev", "Oracle"]),
      "alice williams" := ThirdPartyInfo("Alice Williams", "https://linkedin.com/in/alicewilliams", "@alice_sales", "",
                                         "Enterprise sales expert with a track record of success", "Chicago, IL",
                                         ["Enterprise Sales", "Negotiation", "CRM"], ["BigCorp Inc", "Salesforce", "HubSpot"])
    ]
  }

  /** The seeded providers. */
  function SeedProviders(): map<string, Provider> {
    map[
      ProviderAcmeCorp := Provider(ProviderAcmeCorp, "Acme Corp", "https://acme-corp.com/logo.png"),
      ProviderTechCo := Provider(ProviderTechCo, "TechCo", "https://techco.io/logo.png"),
      ProviderStartupDev := Provider(ProviderStartupDev, "StartupDev", "https://startup.dev/logo.png"),
      ProviderBigCorpInc := Provider(ProviderBigCorpInc, "BigCorp Inc", "https://bigcorp.com/logo.png"),
      ProviderCloudSync := Provider(ProviderCloudSync, "CloudSync", "https://cloudsync.io/logo.png"),
      ProviderDataFlowSystems := Provider(ProviderDataFlowSystems, "DataFlow Systems", "https://dataflow.com/logo.png")
    ]
  }

  /** The third-party lookup: by the lower-cased full name. */
  function LookupThirdParty(m: map<string, ThirdPartyInfo>, fullName: string): (r: Option<ThirdPartyInfo>)
    ensures r.Some? <==> ToLower(fullName) in m
    ensures r.Some? ==> r.value == m[ToLower(fullName)]
  {
    var key := ToLower(fullName);
    if key in m then Some(m[key]) else None
  }

  /** Names that differ only in letter case find the same profile. */
  lemma LookupThirdPartyIgnoresCase(m: map<string, ThirdPartyInfo>, a: string, b: string)
    requires EqualFold(a, b)
    ensures LookupThirdParty(m, a) == LookupThirdParty(m, b)
  {
  }

  /** The lower-cased forms of the four seeded full names. */
  lemma SeedNamesLowered()
    ensures ToLower("John Doe") == "john doe"
    ensures ToLower("Jane Smith") == "jane smith"
    ensures ToLower("Bob Johnson") == "bob johnson"
    ensures ToLower("Alice Williams") == "alice williams"
  {
    assert ToLower("John Doe") == "john doe" by {}
    assert ToLower("Jane Smith") == "jane smith" by {}
    assert ToLower("Bob Johnson") == "bob johnson" by {}
    assert ToLower("Alice Williams") == "alice williams" by {}
  }

  /** Every seeded profile is keyed by its own full name, lower-cased. */
  lemma SeedThirdPartyKeys()
    ensures forall k :: k in SeedThirdParty() ==> ToLower(SeedThirdParty()[k].fullName) == k
  {
    SeedNamesLowered();
  }

  /** Any casing of a seeded profile's full name finds that profile. */
  lemma SeededProfileFoundInAnyCase(k: string, name: string)
    requires k in SeedThirdParty()
    requires EqualFold(name, SeedThirdParty()[k].fullName)
    ensures LookupThirdParty(SeedThirdParty(), name) == Some(SeedThirdParty()[k])
  {
    SeedThirdPartyKeys();
  }

  /** The contacts after UpdateContactPhone. */
  function WithContactPhone(contacts: map<string, Contact>, contactId: string, phone: string)
    : (c': map<string, Contact>)
    ensures contactId !in contacts ==> c' == contacts
    ensures c'.Keys == contacts.Keys
    ensures forall k :: k in contacts && k != contactId ==> c'[k] == contacts[k]
    ensures contactId in contacts ==> c'[contactId].phone == phone
    ensures contactId in contacts ==> c'[contactId] == contacts[contactId].(phone := c'[contactId].phone)
  {
    if contactId in contacts then contacts[contactId := contacts[contactId].(phone := phone)] else contacts
  }

  /** The contacts after UpdateContactEmail. */
  function WithContactEmail(contacts: map<string, Contact>, contactId: string, email: string)
    : (c': map<string, Contact>)
    ensures contactId !in contacts ==> c' == contacts
    ensures c'.Keys == contacts.Keys
    ensures forall k :: k in contacts && k != contactId ==> c'[k] == contacts[k]
    ensures contactId in contacts ==> c'[contactId].email == email
    ensures contactId in contacts ==> c'[contactId] == contacts[contactId].(email := c'[contactId].email)
  {
    if contactId in contacts then contacts[contactId := contacts[contactId].(email := email)] else contacts
  }

  /** An enumeration of a provider map: one entry per key, in the order of `keys`. */
  ghost predicate EnumeratesProviders(r: seq<Provider>, keys: seq<string>, providers: map<string, Provider>) {
    && |r| == |keys| == |providers|
    && (forall i, j :: 0 <= i < j < |keys| ==> keys[i] != keys[j])
    && (forall id :: id in providers <==> id in keys)
    && (forall i :: 0 <= i < |r| ==> keys[i] in providers && r[i] == providers[keys[i]])
  }

  /** The directory. */
  class MockData {
    var contacts: map<string, Contact>
    const thirdParty: map<string, ThirdPartyInfo>
    const providers: map<string, Provider>
    const enrichmentData: map<string, FindableData>

    /** NewMockData: the seeded directory. */
    constructor ()
      ensures contacts == SeedContacts() && thirdParty == SeedThirdParty()
      ensures providers == SeedProviders() && enrichmentData == SeedEnrichmentData()
    {
      contacts := SeedContacts();
      thirdParty := SeedThirdParty();
      providers := SeedProviders();
      enrichmentData := SeedEnrichmentData();
    }

    /** GetContact: the contact with that id, if any. */
    function GetContact(id: string): (r: Option<Contact>)
      reads this
      ensures r.Some? <==> id in contacts
      ensures r.Some? ==> r.value == contacts[id]
    {
      if id in contacts then Some(contacts[id]) else None
    }

    /** GetThirdPartyInfo: the profile stored under the lower-cased full name. */
    function GetThirdPartyInfo(fullName: string): (r: Option<ThirdPartyInfo>)
      ensures r == LookupThirdParty(thirdParty, fullName)
      ensures r.Some? ==> ToLower(fullName) in thirdParty
    {
      LookupThirdParty(thirdParty, fullName)
    }

    /** GetAllProviders: every provider once, in an order the model leaves open (Go map iteration). */
    method GetAllProviders() returns (r: seq<Provider>, ghost keys: seq<string>)
      ensures |r| == |providers|
      ensures forall id :: id in providers ==> providers[id] in r
      ensures forall i :: 0 <= i < |r| ==> r[i] in providers.Values
      ensures EnumeratesProviders(r, keys, providers)
    {
      r, keys := [], [];
      var rest := providers.Keys;
      while rest != {}
        invariant rest <= providers.Keys
        invariant |keys| + |rest| == |providers|
        invariant |r| == |keys|
        invariant forall i, j :: 0 <= i < j < |keys| ==> keys[i] != keys[j]
        invariant forall id :: id in providers ==> (id in keys <==> id !in rest)
        invariant forall i :: 0 <= i < |r| ==> keys[i] in providers && r[i] == providers[keys[i]]
        decreases |rest|
      {
        var id :| id in rest;
        r, keys := r + [providers[id]], keys + [id];
        rest := rest - {id};
      }
      forall id | id in providers
        ensures providers[id] in r
      {
        var i :| 0 <= i < |keys| && keys[i] == id;
        assert r[i] == providers[id];
      }
    }

    /** GetProvider: the provider with that id, if any. */
    function GetProvider(id: string): (r: Option<Provider>)
      ensures r.Some? <==> id in providers
      ensures r.Some? ==> r.value == providers[id]
    {
      if id in providers then Some(providers[id]) else None
    }

    /** GetEnrichmentData: ("", "", false) for an unknown contact, the stored pair and true otherwise. */
    function GetEnrichmentData(contactId: string): (r: (string, string, bool))
      ensures !r.2 <==> contactId !in enrichmentData
      ensures !r.2 ==> r.0 == "" && r.1 == ""
      ensures r.2 ==> r.0 == enrichmentData[contactId].phone && r.1 == enrichmentData[contactId].email
    {
      if contactId in enrichmentData then
        var d := enrichmentData[contactId];
        (d.phone, d.email, true)
      else ("", "", false)
    }

    /** UpdateContactPhone: overwrite one contact's phone; an unknown id is an error. */
    method UpdateContactPhone(contactId: string, phone: string) returns (err: Option<string>)
      modifies this
      ensures err.Some? <==> contactId !in old(contacts)
      ensures err.Some? ==> err.value == "contact not found: " + contactId
      ensures contacts == WithContactPhone(old(contacts), contactId, phone)
    {
      if contactId !in contacts {
        return Some("contact not found: " + contactId);
      }
      var contact := contacts[contactId];
      contact := contact.(phone := phone);
      contacts := contacts[contactId := contact];
      err := None;
    }

    /** UpdateContactEmail: overwrite one contact's email; an unknown id is an error. */
    method UpdateContactEmail(contactId: string, email: string) returns (err: Option<string>)
      modifies this
      ensures err.Some? <==> contactId !in old(contacts)
      ensures err.Some? ==> err.value == "contact not found: " + contactId
      ensures contacts == WithContactEmail(old(contacts), contactId, email)
    {
      if contactId !in contacts {
        return Some("contact not found: " + contactId);
      }
      var contact := contacts[contactId];
      contact := contact.(email := email);
      contacts := contacts[contactId := contact];
      err := None;
    }
  }
}
