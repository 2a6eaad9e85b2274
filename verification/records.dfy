/** The kiosk's domain records (schedules, announcements, products, offer
    categories and the payment configuration), their `Partial<T>` patches and
    the object-spread merge `{ ...record, ...patch }` that the store's update
    operations perform. */
module Records {
  import opened Wrappers

  /** Record identifiers are opaque strings. */
  type Id = string

  /** A stored record: its generated id plus the entity's own fields, so that
      `V` is exactly the `Omit<T, 'id'>` the store's `add` operations take. */
  datatype Keyed<V> = Keyed(id: Id, fields: V)

  /** A `Partial<T>`: the id and every field may be absent. An absent field
      (`None`) leaves the record's value alone when merged. */
  datatype Patch<P> = Patch(id: Option<Id>, fields: P)

  /** JavaScript truthiness of an optional text field: present and non-empty. */
  predicate Filled(s: Option<string>) {
    s.Some? && s.value != ""
  }

  /** `{ ...r, ...p }` on the id: a present id in the patch wins. The field part
      is delegated to the entity's own `merge`. */
  function MergeRecord<V, P>(r: Keyed<V>, p: Patch<P>, merge: (V, P) -> V): (m: Keyed<V>)
    ensures p.id.None? ==> m.id == r.id
    ensures p.id.Some? ==> m.id == p.id.value
  {
    Keyed(p.id.GetOr(r.id), merge(r.fields, p.fields))
  }

  /** Everything the generic admin form controller needs to know about one
      entity type.
      - `complete`: the save-time validation: the draft's fields as a complete
        record when every required field is truthy, `None` otherwise;
      - `merge`: the field half of `{ ...record, ...patch }`;
      - `load`: a record's fields as a patch with every field present (what
        the edit button puts in the form);
      - `empty`: the patch with no field present (`{}`);
      - `blank`: the draft a form is reset to. */
  datatype Kind<!V, !P> = Kind(
    complete: P -> Option<V>,
    merge: (V, P) -> V,
    load: V -> P,
    empty: P,
    blank: P)

  /** The laws the controller relies on: the empty patch changes nothing, a
      fully loaded patch overwrites everything, a draft that passes validation
      determines the merged record completely, and validation only accepts
      drafts that are fully loaded records. */
  ghost predicate Lawful<V(!new), P(!new)>(k: Kind<V, P>) {
    && (forall v :: k.merge(v, k.empty) == v)
    && (forall v, w :: k.merge(w, k.load(v)) == v)
    && (forall p, w :: k.complete(p).Some? ==> k.merge(w, p) == k.complete(p).value)
    && (forall p :: k.complete(p).Some? ==> k.load(k.complete(p).value) == p)
  }

  // ---------------------------------------------------------------- Schedule

  datatype ScheduleFields = ScheduleFields(day: string, time: string, title: string)
  datatype SchedulePatch = SchedulePatch(day: Option<string>, time: Option<string>, title: Option<string>)
  type Schedule = Keyed<ScheduleFields>

  function MergeSchedule(f: ScheduleFields, p: SchedulePatch): ScheduleFields {
    ScheduleFields(p.day.GetOr(f.day), p.time.GetOr(f.time), p.title.GetOr(f.title))
  }

  function LoadSchedule(f: ScheduleFields): SchedulePatch {
    SchedulePatch(Some(f.day), Some(f.time), Some(f.title))
  }

  /** A schedule can be saved when day, time and title are all filled in. */
  function CompleteSchedule(p: SchedulePatch): (r: Option<ScheduleFields>)
    ensures r.Some? <==> Filled(p.day) && Filled(p.time) && Filled(p.title)
    ensures r.Some? ==> LoadSchedule(r.value) == p
  {
    if Filled(p.day) && Filled(p.time) && Filled(p.title)
    then Some(ScheduleFields(p.day.value, p.time.value, p.title.value))
    else None
  }

  const NoSchedulePatch: SchedulePatch := SchedulePatch(None, None, None)

  /** The schedule form resets to `{}`. */
  const ScheduleKind: Kind<ScheduleFields, SchedulePatch> :=
    Kind(CompleteSchedule, MergeSchedule, LoadSchedule, NoSchedulePatch, NoSchedulePatch)

  lemma ScheduleKindLawful()
    ensures Lawful(ScheduleKind)
  {
  }

  // ------------------------------------------------------------ Announcement

  datatype AnnouncementType = Event | Info | Alert

  datatype AnnouncementFields =
    AnnouncementFields(title: string, date: string, description: string, kind: AnnouncementType)
  datatype AnnouncementPatch =
    AnnouncementPatch(title: Option<string>, date: Option<string>, description: Option<string>,
                      kind: Option<AnnouncementType>)
  type Announcement = Keyed<AnnouncementFields>

  function MergeAnnouncement(f: AnnouncementFields, p: AnnouncementPatch): AnnouncementFields {
    AnnouncementFields(p.title.GetOr(f.title), p.date.GetOr(f.date),
                       p.description.GetOr(f.description), p.kind.GetOr(f.kind))
  }

  function LoadAnnouncement(f: AnnouncementFields): AnnouncementPatch {
    AnnouncementPatch(Some(f.title), Some(f.date), Some(f.description), Some(f.kind))
  }

  /** An announcement can be saved when title, date and description are filled
      in and a type is chosen (every type name is a non-empty string). */
  function CompleteAnnouncement(p: AnnouncementPatch): (r: Option<AnnouncementFields>)
    ensures r.Some? <==> Filled(p.title) && Filled(p.date) && Filled(p.description) && p.kind.Some?
    ensures r.Some? ==> LoadAnnouncement(r.value) == p
  {
    if Filled(p.title) && Filled(p.date) && Filled(p.description) && p.kind.Some?
    then Some(AnnouncementFields(p.title.value, p.date.value, p.description.value, p.kind.value))
    else None
  }

  const NoAnnouncementPatch: AnnouncementPatch := AnnouncementPatch(None, None, None, None)

  /** The announcement form resets to `{ type: 'info' }`. */
  const AnnouncementKind: Kind<AnnouncementFields, AnnouncementPatch> :=
    Kind(CompleteAnnouncement, MergeAnnouncement, LoadAnnouncement, NoAnnouncementPatch,
         AnnouncementPatch(None, None, None, Some(Info)))

  lemma AnnouncementKindLawful()
    ensures Lawful(AnnouncementKind)
  {
  }

  // ----------------------------------------------------------------- Product

  datatype ProductCategory = Food | Drink | Clothing | Book | Other

  /** `price` is in cents. */
  datatype ProductFields = ProductFields(name: string, price: int, category: ProductCategory)
  datatype ProductPatch = ProductPatch(name: Option<string>, price: Option<int>, category: Option<ProductCategory>)
  type Product = Keyed<ProductFields>

  function MergeProduct(f: ProductFields, p: ProductPatch): ProductFields {
    ProductFields(p.name.GetOr(f.name), p.price.GetOr(f.price), p.category.GetOr(f.category))
  }

  function LoadProduct(f: ProductFields): ProductPatch {
    ProductPatch(Some(f.name), Some(f.price), Some(f.category))
  }

  /** A product can be saved when it has a name, a truthy price (so a price of
      0 is refused, while a negative one is accepted) and a category. */
  function CompleteProduct(p: ProductPatch): (r: Option<ProductFields>)
    ensures r.Some? <==> Filled(p.name) && p.price.Some? && p.price.value != 0 && p.category.Some?
    ensures r.Some? ==> LoadProduct(r.value) == p
  {
    if Filled(p.name) && p.price.Some? && p.price.value != 0 && p.category.Some?
    then Some(ProductFields(p.name.value, p.price.value, p.category.value))
    else None
  }

  const NoProductPatch: ProductPatch := ProductPatch(None, None, None)

  /** The product form resets to `{ category: 'other' }`. */
  const ProductKind: Kind<ProductFields, ProductPatch> :=
    Kind(CompleteProduct, MergeProduct, LoadProduct, NoProductPatch,
         ProductPatch(None, None, Some(Other)))

  lemma ProductKindLawful()
    ensures Lawful(ProductKind)
  {
  }

  // ----------------------------------------------------------- OfferCategory

  datatype OfferCategoryFields = OfferCategoryFields(title: string)
  datatype OfferCategoryPatch = OfferCategoryPatch(title: Option<string>)
  type OfferCategory = Keyed<OfferCategoryFields>

  function MergeOfferCategory(f: OfferCategoryFields, p: OfferCategoryPatch): OfferCategoryFields {
    OfferCategoryFields(p.title.GetOr(f.title))
  }

  function LoadOfferCategory(f: OfferCategoryFields): OfferCategoryPatch {
    OfferCategoryPatch(Some(f.title))
  }

  /** An offer category can be saved when its title is filled in. */
  function CompleteOfferCategory(p: OfferCategoryPatch): (r: Option<OfferCategoryFields>)
    ensures r.Some? <==> Filled(p.title)
    ensures r.Some? ==> LoadOfferCategory(r.value) == p
  {
    if Filled(p.title) then Some(OfferCategoryFields(p.title.value)) else None
  }

  const NoOfferCategoryPatch: OfferCategoryPatch := OfferCategoryPatch(None)

  /** The offer-category form resets to `{}`. */
  const OfferCategoryKind: Kind<OfferCategoryFields, OfferCategoryPatch> :=
    Kind(CompleteOfferCategory, MergeOfferCategory, LoadOfferCategory, NoOfferCategoryPatch,
         NoOfferCategoryPatch)

  lemma OfferCategoryKindLawful()
    ensures Lawful(OfferCategoryKind)
  {
  }

  // ----------------------------------------------------------- PaymentConfig

  datatype PixKeyType = Cpf | Cnpj | Email | Phone | Random

  datatype PaymentConfig = PaymentConfig(
    pixKey: string,
    pixKeyType: PixKeyType,
    cardMachineEnabled: bool,
    cardMachineIp: string)

  datatype ConfigPatch = ConfigPatch(
    pixKey: Option<string>,
    pixKeyType: Option<PixKeyType>,
    cardMachineEnabled: Option<bool>,
    cardMachineIp: Option<string>)

  /** `{ ...config, ...patch }`. */
  function MergeConfig(c: PaymentConfig, p: ConfigPatch): PaymentConfig {
    PaymentConfig(p.pixKey.GetOr(c.pixKey), p.pixKeyType.GetOr(c.pixKeyType),
                  p.cardMachineEnabled.GetOr(c.cardMachineEnabled), p.cardMachineIp.GetOr(c.cardMachineIp))
  }

  /** A whole configuration passed where a `Partial<PaymentConfig>` is expected. */
  function FullConfigPatch(c: PaymentConfig): ConfigPatch {
    ConfigPatch(Some(c.pixKey), Some(c.pixKeyType), Some(c.cardMachineEnabled), Some(c.cardMachineIp))
  }
}
