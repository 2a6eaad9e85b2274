/** The administration panel: five tabs, one form per editable collection
    (each run by the generic `Editor` controller on its own slice of the
    store) and the payment-configuration form. */
module Admin {
  import opened Wrappers
  import opened Records
  import opened Collection
  import opened Store
  import Editor
  import Numerals

  datatype Tab = SchedulesTab | AnnouncementsTab | ProductsTab | OffersTab | ConfigTab

  /** The panel's state: the shared store it edits, the active tab, the four
      forms and the configuration form. */
  datatype Panel = Panel(
    store: Store,
    tab: Tab,
    schedules: Editor.Editor<SchedulePatch>,
    announcements: Editor.Editor<AnnouncementPatch>,
    products: Editor.Editor<ProductPatch>,
    offers: Editor.Editor<OfferCategoryPatch>,
    configForm: PaymentConfig)

  /** What the administrator does on the panel. */
  datatype Event =
    | OnSchedules(scheduleAction: Editor.Action<ScheduleFields, SchedulePatch>)
    | OnAnnouncements(announcementAction: Editor.Action<AnnouncementFields, AnnouncementPatch>)
    | OnProducts(productAction: Editor.Action<ProductFields, ProductPatch>)
    | OnOffers(offerAction: Editor.Action<OfferCategoryFields, OfferCategoryPatch>)
    | SelectTab(target: Tab)
    | EditConfig(form: PaymentConfig)
    | SaveConfig

  /** The new panel state and the dialog the event raised. */
  datatype Reply = Reply(panel: Panel, alert: Editor.Alert)

  /** The panel as it mounts: schedules tab, every form at its default, and
      the configuration form seeded from the store. */
  function Open(st: Store): (a: Panel)
    ensures a.store == st && a.tab == SchedulesTab && a.configForm == st.paymentConfig
    ensures a.schedules.editing.None? && a.announcements.editing.None?
    ensures a.products.editing.None? && a.offers.editing.None?
  {
    Panel(st, SchedulesTab, Editor.Blank(ScheduleKind), Editor.Blank(AnnouncementKind),
          Editor.Blank(ProductKind), Editor.Blank(OfferCategoryKind), st.paymentConfig)
  }

  /** A tab button: it activates the tab and resets the form of the tab it
      activates (the configuration tab resets nothing); the other forms keep
      their drafts. */
  function Select(a: Panel, t: Tab): (b: Panel)
    ensures b.tab == t && b.store == a.store && b.configForm == a.configForm
    ensures b.schedules == (if t == SchedulesTab then Editor.Blank(ScheduleKind) else a.schedules)
    ensures b.announcements == (if t == AnnouncementsTab then Editor.Blank(AnnouncementKind) else a.announcements)
    ensures b.products == (if t == ProductsTab then Editor.Blank(ProductKind) else a.products)
    ensures b.offers == (if t == OffersTab then Editor.Blank(OfferCategoryKind) else a.offers)
  {
    match t
    case SchedulesTab => a.(tab := t, schedules := Editor.Blank(ScheduleKind))
    case AnnouncementsTab => a.(tab := t, announcements := Editor.Blank(AnnouncementKind))
    case ProductsTab => a.(tab := t, products := Editor.Blank(ProductKind))
    case OffersTab => a.(tab := t, offers := Editor.Blank(OfferCategoryKind))
    case ConfigTab => a.(tab := t)
  }

  /** `handleSaveConfig`: the whole form is passed as the patch, and the
      effect watching the stored configuration copies it back into the form. */
  function SaveConfiguration(a: Panel): (b: Panel)
    ensures b.store.paymentConfig == a.configForm && b.configForm == a.configForm
    ensures b.store.schedules == a.store.schedules && b.store.announcements == a.store.announcements
    ensures b.store.products == a.store.products && b.store.offerCategories == a.store.offerCategories
  {
    var st := UpdatePaymentConfig(a.store, FullConfigPatch(a.configForm));
    a.(store := st, configForm := st.paymentConfig)
  }

  /** One administrator event. A form action touches only its own collection
      and its own form; the configuration changes only on `SaveConfig`. */
  function Step(a: Panel, e: Event): (r: Reply)
    ensures !e.SaveConfig? ==> r.panel.store.paymentConfig == a.store.paymentConfig
    ensures !e.EditConfig? ==> r.panel.configForm == a.configForm
    ensures e.SaveConfig? ==> r.panel.store.paymentConfig == a.configForm && r.alert == Editor.ConfigSaved
    ensures !e.OnSchedules? ==> r.panel.store.schedules == a.store.schedules
    ensures !e.OnAnnouncements? ==> r.panel.store.announcements == a.store.announcements
    ensures !e.OnProducts? ==> r.panel.store.products == a.store.products
    ensures !e.OnOffers? ==> r.panel.store.offerCategories == a.store.offerCategories
    ensures !e.SelectTab? ==> r.panel.tab == a.tab
  {
    match e
    case OnSchedules(act) =>
      var o := Editor.Step(ScheduleKind, a.store.schedules, a.schedules, act);
      Reply(a.(store := a.store.(schedules := o.records), schedules := o.editor), o.alert)
    case OnAnnouncements(act) =>
      var o := Editor.Step(AnnouncementKind, a.store.announcements, a.announcements, act);
      Reply(a.(store := a.store.(announcements := o.records), announcements := o.editor), o.alert)
    case OnProducts(act) =>
      var o := Editor.Step(ProductKind, a.store.products, a.products, act);
      Reply(a.(store := a.store.(products := o.records), products := o.editor), o.alert)
    case OnOffers(act) =>
      var o := Editor.Step(OfferCategoryKind, a.store.offerCategories, a.offers, act);
      Reply(a.(store := a.store.(offerCategories := o.records), offers := o.editor), o.alert)
    case SelectTab(t) => Reply(Select(a, t), Editor.Quiet)
    case EditConfig(form) => Reply(a.(configForm := form), Editor.Quiet)
    case SaveConfig => Reply(SaveConfiguration(a), Editor.ConfigSaved)
  }

  /** The panel after a sequence of events. */
  function Run(a: Panel, es: seq<Event>): Panel
    decreases |es|
  {
    if es == [] then a else Run(Step(a, es[0]).panel, es[1..])
  }

  /** The events the screen can actually produce: edit buttons only exist for
      listed records, and generated ids do not collide. */
  ghost predicate Enabled(a: Panel, e: Event) {
    match e
    case OnSchedules(act) => Editor.Enabled(a.store.schedules, act)
    case OnAnnouncements(act) => Editor.Enabled(a.store.announcements, act)
    case OnProducts(act) => Editor.Enabled(a.store.products, act)
    case OnOffers(act) => Editor.Enabled(a.store.offerCategories, act)
    case _ => true
  }

  ghost predicate RunEnabled(a: Panel, es: seq<Event>)
    decreases |es|
  {
    es == [] || (Enabled(a, es[0]) && RunEnabled(Step(a, es[0]).panel, es[1..]))
  }

  /** The panel's invariant: each collection with its form satisfies the
      editor invariant. */
  ghost predicate Inv(a: Panel) {
    && Editor.Inv(ScheduleKind, a.store.schedules, a.schedules)
    && Editor.Inv(AnnouncementKind, a.store.announcements, a.announcements)
    && Editor.Inv(ProductKind, a.store.products, a.products)
    && Editor.Inv(OfferCategoryKind, a.store.offerCategories, a.offers)
  }

  /** Every stored record holds the fields its form requires: filled-in texts
      and, for products, a non-zero price. */
  ghost predicate RecordsValid(st: Store) {
    && (forall i :: 0 <= i < |st.schedules| ==>
          var f := st.schedules[i].fields; f.day != "" && f.time != "" && f.title != "")
    && (forall i :: 0 <= i < |st.announcements| ==>
          var f := st.announcements[i].fields; f.title != "" && f.date != "" && f.description != "")
    && (forall i :: 0 <= i < |st.products| ==>
          var f := st.products[i].fields; f.name != "" && f.price != 0)
    && (forall i :: 0 <= i < |st.offerCategories| ==> st.offerCategories[i].fields.title != "")
  }

  /** The panel invariant means a well-formed store whose records are all
      valid, and conversely a store like that opens into a panel satisfying
      it. */
  lemma InvMeansValidStore(a: Panel)
    ensures Inv(a) ==> WellFormed(a.store) && RecordsValid(a.store)
    ensures WellFormed(a.store) && RecordsValid(a.store) ==> Inv(Open(a.store))
  {
    if Inv(a) {
      forall i | 0 <= i < |a.store.products|
        ensures a.store.products[i].fields.price != 0
      {
        assert CompleteProduct(LoadProduct(a.store.products[i].fields)).Some?;
      }
    }
  }

  /** Every built-in record has the fields its form requires. */
  lemma InitialRecordsValid()
    ensures RecordsValid(Initial())
  {
    assert forall i :: 0 <= i < |InitialSchedules| ==> InitialSchedules[i].fields.day != "";
    assert forall i :: 0 <= i < |InitialProducts| ==> InitialProducts[i].fields.price > 0;
  }

  /** The built-in contents satisfy the invariant, so the panel first opens in
      a good state. */
  lemma OpenInitial()
    ensures Inv(Open(Initial()))
  {
    InitialRecordsValid();
    InvMeansValidStore(Open(Initial()));
  }

  lemma StepInv(a: Panel, e: Event)
    requires Inv(a) && Enabled(a, e)
    ensures Inv(Step(a, e).panel)
  {
    match e
    case OnSchedules(act) =>
      ScheduleKindLawful();
      Editor.StepInv(ScheduleKind, a.store.schedules, a.schedules, act);
    case OnAnnouncements(act) =>
      AnnouncementKindLawful();
      Editor.StepInv(AnnouncementKind, a.store.announcements, a.announcements, act);
    case OnProducts(act) =>
      ProductKindLawful();
      Editor.StepInv(ProductKind, a.store.products, a.products, act);
    case OnOffers(act) =>
      OfferCategoryKindLawful();
      Editor.StepInv(OfferCategoryKind, a.store.offerCategories, a.offers, act);
    case SelectTab(t) =>
    case EditConfig(form) =>
    case SaveConfig =>
  }

  /** Any session of enabled events keeps the invariant, so the store never
      holds two records with one id or a record its form would refuse. */
  lemma {:induction false} RunInv(a: Panel, es: seq<Event>)
    requires Inv(a) && RunEnabled(a, es)
    ensures Inv(Run(a, es)) && WellFormed(Run(a, es).store) && RecordsValid(Run(a, es).store)
    decreases |es|
  {
    if es == [] {
      InvMeansValidStore(a);
    } else {
      StepInv(a, es[0]);
      RunInv(Step(a, es[0]).panel, es[1..]);
    }
  }

  /** The price input: `parseInt` of the typed text replaces the draft's price. */
  function TypePrice(p: ProductPatch, text: string): (q: ProductPatch)
    ensures q.name == p.name && q.category == p.category
    ensures q.price == Numerals.ParseInt(text)
  {
    p.(price := Numerals.ParseInt(text))
  }

  /** A typed price is accepted by the product form exactly when it reads as a
      non-zero number: "0" and text without digits are refused, while "-5" is
      accepted. */
  lemma TypedPriceAccepted(p: ProductPatch, text: string)
    requires Filled(p.name) && p.category.Some?
    ensures CompleteProduct(TypePrice(p, text)).Some? <==>
            (Numerals.ParseInt(text).Some? && Numerals.ParseInt(text).value != 0)
    ensures CompleteProduct(TypePrice(p, "0")).None?
    ensures CompleteProduct(TypePrice(p, "abc")).None?
    ensures CompleteProduct(TypePrice(p, "-5")) == Some(ProductFields(p.name.value, -5, p.category.value))
  {
    assert Numerals.LeadingDigits("0") == 1;
    assert "0"[..1] == "0";
    assert Numerals.LeadingDigits("abc") == 0;
    assert "-5"[1..] == "5";
    assert Numerals.LeadingDigits("5") == 1;
    assert "5"[..1] == "5";
  }

  /** Saving the configuration stores exactly the form, leaves every
      collection and form alone, and a second save changes nothing more. */
  lemma SaveConfigIdempotent(a: Panel)
    ensures Step(Step(a, SaveConfig).panel, SaveConfig).panel == Step(a, SaveConfig).panel
    ensures Step(a, SaveConfig).panel.store.paymentConfig == a.configForm
  {
  }

  /** Switching to a tab and back discards an edit in progress on that tab. */
  lemma SelectTabCancelsEdit(a: Panel, other: Tab)
    requires other != SchedulesTab
    ensures Run(a, [SelectTab(other), SelectTab(SchedulesTab)]).schedules.editing.None?
    ensures Run(a, [SelectTab(other), SelectTab(SchedulesTab)]).store == a.store
  {
    var b := Step(a, SelectTab(other)).panel;
    assert [SelectTab(other), SelectTab(SchedulesTab)][1..] == [SelectTab(SchedulesTab)];
    assert Run(a, [SelectTab(other), SelectTab(SchedulesTab)]) == Run(b, [SelectTab(SchedulesTab)]);
  }
}
