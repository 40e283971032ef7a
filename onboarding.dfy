/**
 * The setup wizard (components/Onboarding.tsx): step 1 asks for a name and a
 * safe word, step 2 collects emergency contacts, step 3 offers the launch
 * shortcuts and finishes by saving a completed profile.
 */
module SetupWizard {
  import opened Types
  import opened SafetyContext

  /** The relation every contact added in the wizard receives. */
  const DefaultRelation: string := "Family"

  /** step, name, safeword, contacts, and the two contact input fields. */
  datatype Wizard = Wizard(
    step: nat,
    name: string,
    safeword: string,
    contacts: seq<EmergencyContact>,
    contactName: string,
    contactPhone: string)

  /** The wizard opens on step 1, its fields prefilled from the stored profile. */
  function Open(p: UserProfile): (w: Wizard)
    ensures w.step == 1 && w.name == p.fullName && w.safeword == p.safeword && w.contacts == p.contacts
    ensures w.contactName == "" && w.contactPhone == ""
  {
    Wizard(1, p.fullName, p.safeword, p.contacts, "", "")
  }

  /** The name and safe word inputs exist only on step 1. */
  function EditIdentity(w: Wizard, name: string, safeword: string): (r: Wizard)
    ensures w.step == 1 ==> r == w.(name := name, safeword := safeword)
    ensures w.step != 1 ==> r == w
  {
    if w.step == 1 then w.(name := name, safeword := safeword) else w
  }

  /** The contact inputs exist only on step 2. */
  function EditContactFields(w: Wizard, contactName: string, contactPhone: string): (r: Wizard)
    ensures w.step == 2 ==> r == w.(contactName := contactName, contactPhone := contactPhone)
    ensures w.step != 2 ==> r == w
  {
    if w.step == 2 then w.(contactName := contactName, contactPhone := contactPhone) else w
  }

  /**
   * addContact: with both inputs filled, a "Family" contact with the given id
   * is appended and the inputs are cleared; otherwise nothing happens.
   */
  function AppendContact(w: Wizard, id: string): (r: Wizard)
    ensures w.step == 2 && w.contactName != "" && w.contactPhone != "" ==>
      && r.contacts == w.contacts + [EmergencyContact(id, w.contactName, w.contactPhone, DefaultRelation)]
      && r.contactName == "" && r.contactPhone == ""
      && r.step == w.step && r.name == w.name && r.safeword == w.safeword
    ensures !(w.step == 2 && w.contactName != "" && w.contactPhone != "") ==> r == w
  {
    if w.step == 2 && w.contactName != "" && w.contactPhone != "" then
      w.(contacts := w.contacts + [EmergencyContact(id, w.contactName, w.contactPhone, DefaultRelation)],
         contactName := "", contactPhone := "")
    else w
  }

  /** `contacts.filter(c => c.id !== id)`. */
  function WithoutId(contacts: seq<EmergencyContact>, id: string): (r: seq<EmergencyContact>)
    ensures |r| <= |contacts|
  {
    if contacts == [] then []
    else if contacts[0].id == id then WithoutId(contacts[1..], id)
    else [contacts[0]] + WithoutId(contacts[1..], id)
  }

  /** Exactly the contacts with another id remain; with no contact of that id, nothing changes. */
  lemma {:induction false} WithoutIdMembers(contacts: seq<EmergencyContact>, id: string)
    ensures forall c :: c in WithoutId(contacts, id) <==> c in contacts && c.id != id
    ensures (forall i :: 0 <= i < |contacts| ==> contacts[i].id != id) ==> WithoutId(contacts, id) == contacts
    decreases |contacts|
  {
    if contacts != [] {
      WithoutIdMembers(contacts[1..], id);
      assert contacts == [contacts[0]] + contacts[1..];
      forall c ensures c in contacts <==> c == contacts[0] || c in contacts[1..] {
      }
      if forall i :: 0 <= i < |contacts| ==> contacts[i].id != id {
        assert forall i :: 0 <= i < |contacts[1..]| ==> contacts[1..][i].id != id by {
          forall i | 0 <= i < |contacts[1..]| ensures contacts[1..][i].id != id {
            assert contacts[1..][i] == contacts[i + 1];
          }
        }
      }
    }
  }

  /** Filtering keeps the order of the remaining contacts: it distributes over concatenation. */
  lemma {:induction false} WithoutIdDistributes(a: seq<EmergencyContact>, b: seq<EmergencyContact>, id: string)
    ensures WithoutId(a + b, id) == WithoutId(a, id) + WithoutId(b, id)
    decreases |a|
  {
    if a == [] {
      assert a + b == b;
    } else {
      WithoutIdDistributes(a[1..], b, id);
      assert (a + b)[1..] == a[1..] + b;
      assert (a + b)[0] == a[0];
      var x, y := WithoutId(a[1..], id), WithoutId(b, id);
      if a[0].id != id {
        assert [a[0]] + (x + y) == ([a[0]] + x) + y;
      }
    }
  }

  /** Removing twice is removing once. */
  lemma WithoutIdIdempotent(contacts: seq<EmergencyContact>, id: string)
    ensures WithoutId(WithoutId(contacts, id), id) == WithoutId(contacts, id)
  {
    var once := WithoutId(contacts, id);
    WithoutIdMembers(contacts, id);
    WithoutIdMembers(once, id);
    forall i | 0 <= i < |once| ensures once[i].id != id {
      assert once[i] in once;
    }
  }

  /** A contact just added is gone again after removing its id, when that id was fresh. */
  lemma RemoveUndoesAdd(contacts: seq<EmergencyContact>, c: EmergencyContact)
    requires forall i :: 0 <= i < |contacts| ==> contacts[i].id != c.id
    ensures WithoutId(contacts + [c], c.id) == contacts
  {
    WithoutIdDistributes(contacts, [c], c.id);
    WithoutIdMembers(contacts, c.id);
    assert WithoutId([c], c.id) == WithoutId([], c.id);
  }

  /** The remove buttons are listed only on step 2. */
  function DropContact(w: Wizard, id: string): (r: Wizard)
    ensures w.step == 2 ==> r == w.(contacts := WithoutId(w.contacts, id))
    ensures w.step != 2 ==> r == w
  {
    if w.step == 2 then w.(contacts := WithoutId(w.contacts, id)) else w
  }

  /** The forward button: step 1 needs a name and a safe word, step 2 at least one contact. */
  function Advance(w: Wizard): (r: Wizard)
    ensures w.step == 1 && w.name != "" && w.safeword != "" ==> r == w.(step := 2)
    ensures w.step == 2 && |w.contacts| >= 1 ==> r == w.(step := 3)
    ensures !(w.step == 1 && w.name != "" && w.safeword != "") && !(w.step == 2 && |w.contacts| >= 1) ==> r == w
  {
    if w.step == 1 && w.name != "" && w.safeword != "" then w.(step := 2)
    else if w.step == 2 && |w.contacts| >= 1 then w.(step := 3)
    else w
  }

  /** The back buttons of steps 2 and 3. */
  function Retreat(w: Wizard): (r: Wizard)
    ensures w.step in {2, 3} ==> r == w.(step := w.step - 1)
    ensures !(w.step in {2, 3}) ==> r == w
  {
    if w.step == 2 || w.step == 3 then w.(step := w.step - 1) else w
  }

  /** handleFinish, offered on step 3: the profile saved, marked complete. */
  function FinishedProfile(w: Wizard): (p: Option<UserProfile>)
    ensures w.step == 3 ==> p == Some(UserProfile(w.name, w.safeword, w.contacts, true))
    ensures w.step != 3 ==> p.None?
  {
    if w.step == 3 then Some(UserProfile(w.name, w.safeword, w.contacts, true)) else None
  }

  // ---------------------------------------------------------------------
  // What every reachable wizard state satisfies
  // ---------------------------------------------------------------------

  datatype WizardEvent =
    | TypeIdentity(name: string, safeword: string)
    | TypeContact(contactName: string, contactPhone: string)
    | Add(id: string)
    | Remove(id: string)
    | Next
    | Previous

  function Apply(w: Wizard, e: WizardEvent): Wizard {
    match e
    case TypeIdentity(n, s) => EditIdentity(w, n, s)
    case TypeContact(n, p) => EditContactFields(w, n, p)
    case Add(id) => AppendContact(w, id)
    case Remove(id) => DropContact(w, id)
    case Next => Advance(w)
    case Previous => Retreat(w)
  }

  function Run(w: Wizard, evs: seq<WizardEvent>): Wizard
    decreases |evs|
  {
    if evs == [] then w else Run(Apply(w, evs[0]), evs[1..])
  }

  /** Past step 1 the identity is filled in; on step 3 there is a contact. */
  predicate Consistent(w: Wizard) {
    && w.step in {1, 2, 3}
    && (w.step >= 2 ==> w.name != "" && w.safeword != "")
    && (w.step == 3 ==> |w.contacts| >= 1)
  }

  lemma ApplyKeepsConsistent(w: Wizard, e: WizardEvent)
    requires Consistent(w)
    ensures Consistent(Apply(w, e))
  {
  }

  lemma {:induction false} RunKeepsConsistent(w: Wizard, evs: seq<WizardEvent>)
    requires Consistent(w)
    ensures Consistent(Run(w, evs))
    decreases |evs|
  {
    if evs != [] {
      ApplyKeepsConsistent(w, evs[0]);
      RunKeepsConsistent(Apply(w, evs[0]), evs[1..]);
    }
  }

  /**
   * Whatever the stored profile and the user's actions, a finished wizard
   * saves a completed profile with a name, a safe word and a contact, and a
   * store still onboarding moves to the dashboard.
   */
  lemma FinishedProfileIsUsable(p: UserProfile, evs: seq<WizardEvent>, s: Store)
    requires s.mode == Onboarding
    ensures var saved := FinishedProfile(Run(Open(p), evs));
      saved.Some? ==>
        && saved.value.isSetupComplete
        && saved.value.fullName != "" && saved.value.safeword != ""
        && |saved.value.contacts| >= 1
        && ApplyUpdateUserProfile(s, saved.value).mode == Dashboard
  {
    RunKeepsConsistent(Open(p), evs);
  }

  // ---------------------------------------------------------------------
  // The mounted wizard
  // ---------------------------------------------------------------------

  class OnboardingScreen {
    const store: SafetyStore
    var step: nat
    var name: string
    var safeword: string
    var contacts: seq<EmergencyContact>
    var contactName: string
    var contactPhone: string

    function State(): Wizard
      reads this
    {
      Wizard(step, name, safeword, contacts, contactName, contactPhone)
    }

    constructor (store: SafetyStore)
      ensures State() == Open(store.profile) && this.store == store
    {
      this.store := store;
      step := 1;
      name := store.profile.fullName;
      safeword := store.profile.safeword;
      contacts := store.profile.contacts;
      contactName, contactPhone := "", "";
    }

    method SetIdentity(n: string, s: string)
      modifies this
      ensures State() == EditIdentity(old(State()), n, s)
    {
      if step == 1 {
        name, safeword := n, s;
      }
    }

    method SetContactFields(n: string, p: string)
      modifies this
      ensures State() == EditContactFields(old(State()), n, p)
    {
      if step == 2 {
        contactName, contactPhone := n, p;
      }
    }

    /** addContact; `id` stands for the clock reading used as the identifier. */
    method AddContact(id: string)
      modifies this
      ensures State() == AppendContact(old(State()), id)
    {
      if step == 2 && contactName != "" && contactPhone != "" {
        contacts := contacts + [EmergencyContact(id, contactName, contactPhone, DefaultRelation)];
        contactName := "";
        contactPhone := "";
      }
    }

    method RemoveContact(id: string)
      modifies this
      ensures State() == DropContact(old(State()), id)
    {
      if step == 2 {
        contacts := WithoutId(contacts, id);
      }
    }

    method Continue()
      modifies this
      ensures State() == Advance(old(State()))
    {
      if step == 1 && name != "" && safeword != "" {
        step := 2;
      } else if step == 2 && |contacts| >= 1 {
        step := 3;
      }
    }

    method Back()
      modifies this
      ensures State() == Retreat(old(State()))
    {
      if step == 2 || step == 3 {
        step := step - 1;
      }
    }

    /** handleFinish: the store receives the completed profile. */
    method HandleFinish()
      modifies store
      ensures var saved := FinishedProfile(State());
        store.Snapshot() == if saved.Some? then ApplyUpdateUserProfile(old(store.Snapshot()), saved.value) else old(store.Snapshot())
    {
      if step == 3 {
        store.UpdateUserProfile(UserProfile(name, safeword, contacts, true));
      }
    }
  }
}
