/** The content store: the four record collections and the payment
    configuration singleton, with their built-in starting contents. The
    collection operations themselves are `Collection.Add`, `Collection.Remove`
    and `Collection.Update`, applied to one field of the store. */
module Store {
  import opened Wrappers
  import opened Records
  import opened Collection

  datatype Store = Store(
    schedules: seq<Schedule>,
    announcements: seq<Announcement>,
    products: seq<Product>,
    offerCategories: seq<OfferCategory>,
    paymentConfig: PaymentConfig)

  /** Every collection has pairwise-distinct ids. */
  ghost predicate WellFormed(st: Store) {
    && Distinct(st.schedules)
    && Distinct(st.announcements)
    && Distinct(st.products)
    && Distinct(st.offerCategories)
  }

  const InitialSchedules: seq<Schedule> := [
    Keyed("1", ScheduleFields("Terça-feira", "19:30", "Culto de Doutrina")),
    Keyed("2", ScheduleFields("Quinta-feira", "19:30", "Culto de Libertação")),
    Keyed("3", ScheduleFields("Domingo", "09:00", "Escola Bíblica Dominical")),
    Keyed("4", ScheduleFields("Domingo", "18:00", "Culto da Família"))
  ]

  const InitialAnnouncements: seq<Announcement> := [
    Keyed("1", AnnouncementFields("Retiro de Jovens", "15/03/2026",
      "As inscrições para o retiro de jovens já estão abertas.", Event)),
    Keyed("2", AnnouncementFields("Bazar Beneficente", "22/03/2026",
      "Venha participar do nosso bazar em prol das obras sociais.", Info)),
    Keyed("3", AnnouncementFields("Reunião de Obreiros", "Todo primeiro sábado",
      "Reunião mensal às 09:00.", Alert))
  ]

  const InitialProducts: seq<Product> := [
    Keyed("1", ProductFields("Refrigerante", 500, Drink)),
    Keyed("2", ProductFields("Salgado", 700, Food)),
    Keyed("3", ProductFields("Água", 300, Drink)),
    Keyed("4", ProductFields("Bolo", 800, Food)),
    Keyed("5", ProductFields("Camiseta", 3500, Clothing)),
    Keyed("6", ProductFields("Livro", 2500, Book))
  ]

  const InitialOfferCategories: seq<OfferCategory> := [
    Keyed("1", OfferCategoryFields("Oferta Missionária")),
    Keyed("2", OfferCategoryFields("Oferta Comum"))
  ]

  const InitialPaymentConfig: PaymentConfig :=
    PaymentConfig("12.345.678/0001-90", Cnpj, true, "192.168.1.100")

  /** The store at process start: ids are distinct in every collection and
      every built-in product has a positive price. */
  function Initial(): (st: Store)
    ensures WellFormed(st)
    ensures forall i :: 0 <= i < |st.products| ==> st.products[i].fields.price > 0
    ensures |st.schedules| == 4 && |st.announcements| == 3
    ensures |st.products| == 6 && |st.offerCategories| == 2
  {
    Store(InitialSchedules, InitialAnnouncements, InitialProducts, InitialOfferCategories,
          InitialPaymentConfig)
  }

  /** `setPaymentConfig({ ...paymentConfig, ...config })`: the supplied fields
      are replaced, the others kept; the collections are untouched. */
  function UpdatePaymentConfig(st: Store, p: ConfigPatch): (r: Store)
    ensures r.schedules == st.schedules && r.announcements == st.announcements
    ensures r.products == st.products && r.offerCategories == st.offerCategories
    ensures r.paymentConfig.pixKey == (if p.pixKey.Some? then p.pixKey.value else st.paymentConfig.pixKey)
    ensures r.paymentConfig.pixKeyType ==
            (if p.pixKeyType.Some? then p.pixKeyType.value else st.paymentConfig.pixKeyType)
    ensures r.paymentConfig.cardMachineEnabled ==
            (if p.cardMachineEnabled.Some? then p.cardMachineEnabled.value else st.paymentConfig.cardMachineEnabled)
    ensures r.paymentConfig.cardMachineIp ==
            (if p.cardMachineIp.Some? then p.cardMachineIp.value else st.paymentConfig.cardMachineIp)
  {
    st.(paymentConfig := MergeConfig(st.paymentConfig, p))
  }

  /** Passing a whole configuration makes the store's configuration equal to
      it, whatever it was before; passing no field changes nothing. */
  lemma UpdatePaymentConfigLaws(st: Store, c: PaymentConfig)
    ensures UpdatePaymentConfig(st, FullConfigPatch(c)).paymentConfig == c
    ensures UpdatePaymentConfig(st, ConfigPatch(None, None, None, None)) == st
  {
  }
}
