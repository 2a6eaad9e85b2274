/** The customer-facing screen flow of the totem: the eleven screens, the
    transient flow state (chosen category and offer type, the amount buffer,
    the CPF-on-receipt flag, the passcode buffer and its error, and the POS
    cart while the POS screen is open), and one step function that applies a
    user event or the processing timer. The content store is read, never
    written, here. */
module Kiosk {
  import opened Wrappers
  import Records
  import opened Store
  import opened Numerals
  import opened Keypad
  import opened Cart

  datatype Screen =
    | Home | OfferType | ValueInput | PaymentMethod | Processing | Success
    | Schedules | Announcements | Pos | AdminLogin | AdminDashboard

  /** The category and offer-type label of the tithe button. */
  const Tithe: string := "Dízimo"

  /** The category label of the offering button. */
  const Offering: string := "Oferta"

  /** The error shown after a wrong passcode. */
  const WrongPasscode: string := "Senha incorreta"

  datatype Flow = Flow(
    screen: Screen,
    category: string,
    offerType: string,
    amount: string,
    cpfEnabled: bool,
    adminPassword: string,
    adminError: string,
    cart: Cart)

  /** The state the application starts in. */
  const Start: Flow := Flow(Home, "", "", ZeroAmount, false, "", "", [])

  datatype Payment = Pix | Debit | Credit

  /** What the user (or the processing timer) can do. */
  datatype Event =
    | ChooseTithe | ChooseOffering | OpenSchedules | OpenAnnouncements | OpenPos | OpenAdmin
    | ChooseOfferCategory(offer: Records.OfferCategory)
    | AmountKey(amountDigit: Digit) | AmountBackspace | ToggleCpf | Confirm
    | Pay(payment: Payment)
    | TimerFired
    | BackToStart
    | AddProduct(product: Records.Product) | Checkout
    | PasscodeKey(passcodeDigit: Digit) | PasscodeBackspace | Submit
    | Logout
    | Back

  /** `goBack`: the screen the back button leads to. */
  function GoBack(s: Screen, category: string): (r: Screen)
    ensures r == Home || r == OfferType || r == ValueInput || r == PaymentMethod
    ensures s == ValueInput ==> (r == Home <==> category == Tithe)
    ensures s != Home ==> Depth(r) < Depth(s)
  {
    match s
    case OfferType | Schedules | Announcements | Pos | AdminLogin => Home
    case ValueInput => if category == Tithe then Home else OfferType
    case PaymentMethod => ValueInput
    case Processing => PaymentMethod
    case _ => Home
  }

  /** How far a screen is from the home screen along the forward flow. */
  function Depth(s: Screen): nat {
    match s
    case Home => 0
    case OfferType | Schedules | Announcements | Pos | AdminLogin => 1
    case ValueInput | AdminDashboard => 2
    case PaymentMethod => 3
    case Processing => 4
    case Success => 5
  }

  /** The back button is rendered everywhere except on these four screens. */
  predicate BackShown(s: Screen) {
    s != Home && s != Success && s != Processing && s != AdminDashboard
  }

  /** `parseInt(amount) > 0`, the confirm button's guard (false for `NaN`). */
  predicate AmountPositive(a: string) {
    match ParseInt(a)
    case Some(v) => v > 0
    case None => false
  }

  /** `t` occurs somewhere inside `s`. */
  predicate Mentions(s: string, t: string) {
    exists i :: 0 <= i <= |s| && t <= s[i..]
  }

  /** The status line of the processing screen: it names the card machine's
      address exactly when the card-machine integration is enabled. */
  function ProcessingStatus(cfg: Records.PaymentConfig): (status: string)
    ensures cfg.cardMachineEnabled ==> Mentions(status, cfg.cardMachineIp)
    ensures !cfg.cardMachineEnabled ==> status == "Processando pagamento..."
    ensures cfg.cardMachineEnabled ==> status != "Processando pagamento..."
  {
    if cfg.cardMachineEnabled then
      var prefix := "Conectando à máquina (";
      var status := prefix + cfg.cardMachineIp + ")...";
      assert cfg.cardMachineIp <= status[|prefix|..];
      assert status[0] == 'C';
      status
    else "Processando pagamento..."
  }

  /** Whether the control that produces `e` is on screen (and enabled). The
      processing screen only waits for its timer, the success screen only
      offers the way back to the start, and the dashboard's only kiosk-side
      control is the logout button. */
  predicate Shown(st: Store, f: Flow, e: Event): (b: bool)
    ensures f.screen == Processing ==> (b <==> e == TimerFired)
    ensures f.screen == Success ==> (b <==> e == BackToStart)
    ensures f.screen == AdminDashboard ==> (b <==> e == Logout)
  {
    match e
    case ChooseTithe | ChooseOffering | OpenSchedules | OpenAnnouncements | OpenPos | OpenAdmin =>
      f.screen == Home
    case ChooseOfferCategory(c) => f.screen == OfferType && c in st.offerCategories
    case AmountKey(_) | AmountBackspace | ToggleCpf | Confirm => f.screen == ValueInput
    case Pay(_) => f.screen == PaymentMethod
    case TimerFired => f.screen == Processing
    case BackToStart => f.screen == Success
    case AddProduct(p) => f.screen == Pos && p in st.products
    case Checkout => f.screen == Pos && |f.cart| > 0
    case PasscodeKey(_) | PasscodeBackspace => f.screen == AdminLogin
    case Submit => f.screen == AdminLogin && CanSubmit(f.adminPassword)
    case Logout => f.screen == AdminDashboard
    case Back => BackShown(f.screen)
  }

  /** `resetFlow`: back to the home screen with the transient choices cleared. */
  function ResetFlow(f: Flow): (g: Flow)
    ensures g.(adminPassword := Start.adminPassword, adminError := Start.adminError, cart := Start.cart) == Start
    ensures g.adminPassword == f.adminPassword && g.adminError == f.adminError && g.cart == f.cart
  {
    f.(screen := Home, category := "", offerType := "", amount := ZeroAmount, cpfEnabled := false)
  }

  /** `handleAdminLogin`: the dashboard opens exactly when the buffer holds the
      passcode; either way the buffer is cleared, and a failure stays on the
      screen and shows the error. */
  function SubmitPasscode(f: Flow): (g: Flow)
    ensures g.screen == AdminDashboard <==> f.adminPassword == AdminPasscode || f.screen == AdminDashboard
    ensures g.adminPassword == ""
    ensures f.adminPassword == AdminPasscode ==> g.adminError == ""
    ensures f.adminPassword != AdminPasscode ==> g.adminError == WrongPasscode && g.screen == f.screen
    ensures g.amount == f.amount && g.category == f.category && g.cart == f.cart
  {
    if f.adminPassword == AdminPasscode then f.(screen := AdminDashboard, adminPassword := "", adminError := "")
    else f.(adminError := WrongPasscode, adminPassword := "")
  }

  /** The effect of an event whose control is on screen. Each part of the
      flow has its own handlers: the cart changes only when the POS screen
      opens or a product is tapped, the passcode buffer only on the login
      keypad and its submit button, and the amount only on the amount keypad,
      at checkout and on the way back to the start. */
  function Handle(st: Store, f: Flow, e: Event): (g: Flow)
    ensures g.cart != f.cart ==> e.OpenPos? || e.AddProduct?
    ensures g.adminPassword != f.adminPassword ==> e.PasscodeKey? || e.PasscodeBackspace? || e.Submit?
    ensures g.amount != f.amount ==> e.AmountKey? || e.AmountBackspace? || e.Checkout? || e.BackToStart?
    ensures g.category != f.category ==> e.ChooseTithe? || e.ChooseOffering? || e.BackToStart?
  {
    match e
    case ChooseTithe => f.(category := Tithe, offerType := Tithe, screen := ValueInput)
    case ChooseOffering => f.(category := Offering, screen := OfferType)
    case OpenSchedules => f.(screen := Schedules)
    case OpenAnnouncements => f.(screen := Announcements)
    // The cart is state of the POS screen itself: it starts empty each time
    // the screen is opened.
    case OpenPos => f.(screen := Pos, cart := [])
    case OpenAdmin => f.(screen := AdminLogin)
    case ChooseOfferCategory(c) => f.(offerType := c.fields.title, screen := ValueInput)
    case AmountKey(d) => f.(amount := PressAmount(f.amount, d))
    case AmountBackspace => f.(amount := BackspaceAmount(f.amount))
    case ToggleCpf => f.(cpfEnabled := !f.cpfEnabled)
    case Confirm => if AmountPositive(f.amount) then f.(screen := PaymentMethod) else f
    case Pay(_) => f.(screen := Processing)
    case TimerFired => f.(screen := Success)
    case BackToStart => ResetFlow(f)
    case AddProduct(p) => f.(cart := AddToCart(f.cart, p))
    case Checkout => f.(amount := IntToString(Total(f.cart)), screen := PaymentMethod)
    case PasscodeKey(d) => f.(adminPassword := PressPasscode(f.adminPassword, d))
    case PasscodeBackspace => f.(adminPassword := BackspacePasscode(f.adminPassword))
    case Submit => SubmitPasscode(f)
    case Logout => f.(screen := Home)
    case Back => f.(screen := GoBack(f.screen, f.category))
  }

  /** One step of the kiosk: an event whose control is not on screen changes
      nothing, and the dashboard is entered only by submitting the passcode. */
  function Step(st: Store, f: Flow, e: Event): (g: Flow)
    ensures !Shown(st, f, e) ==> g == f
    ensures g.screen == AdminDashboard && f.screen != AdminDashboard ==>
      e == Submit && f.screen == AdminLogin && f.adminPassword == AdminPasscode
  {
    if Shown(st, f, e) then Handle(st, f, e) else f
  }

  function Run(st: Store, f: Flow, es: seq<Event>): Flow
    decreases |es|
  {
    if es == [] then f else Run(st, Step(st, f, es[0]), es[1..])
  }

  /** What every reachable flow satisfies. */
  ghost predicate Inv(st: Store, f: Flow) {
    && |f.adminPassword| <= PasscodeLength
    && (f.screen == OfferType ==> f.category != Tithe)
    && DistinctLines(f.cart)
    && PositiveQuantities(f.cart)
    && (f.screen == Pos ==> LinesFrom(f.cart, st.products))
  }

  lemma StartInv(st: Store)
    ensures Inv(st, Start)
  {
  }

  lemma StepInv(st: Store, f: Flow, e: Event)
    requires WellFormed(st) && Inv(st, f)
    ensures Inv(st, Step(st, f, e))
  {
    if Shown(st, f, e) {
      match e
      case AddProduct(p) =>
        AddFromCatalogue(f.cart, st.products, p);
      case _ =>
    }
  }

  /** Over any sequence of events the passcode buffer stays within six
      digits, the offer-type screen is never showing the tithe, and the cart
      keeps one line per product, each with a positive quantity and the
      catalogue's price. */
  lemma {:induction false} RunInv(st: Store, f: Flow, es: seq<Event>)
    requires WellFormed(st) && Inv(st, f)
    ensures Inv(st, Run(st, f, es))
    decreases |es|
  {
    if es != [] {
      StepInv(st, f, es[0]);
      RunInv(st, Step(st, f, es[0]), es[1..]);
    }
  }

  /** The back button undoes every forward move between screens, except the
      POS checkout (see `CheckoutThenBack`). */
  lemma BackUndoesForward(st: Store, f: Flow, e: Event)
    requires Inv(st, f) && e != Back && e != Checkout
    requires Step(st, f, e).screen != f.screen && BackShown(Step(st, f, e).screen)
    ensures GoBack(Step(st, f, e).screen, Step(st, f, e).category) == f.screen
  {
  }

  /** After a POS checkout the back button leads to the amount screen, not
      back to the POS screen, which has been left by then. */
  lemma CheckoutThenBack(st: Store, f: Flow)
    requires Shown(st, f, Checkout)
    ensures Step(st, f, Checkout).screen == PaymentMethod
    ensures Step(st, Step(st, f, Checkout), Back).screen == ValueInput
  {
  }

  /** Pressing back at most four times always reaches the home screen. */
  lemma BackReachesHome(s: Screen, category: string)
    ensures GoBack(GoBack(GoBack(GoBack(s, category), category), category), category) == Home
  {
  }

  /** The tithe goes straight to the amount screen with the offer type set,
      and back returns home; the offering goes to the offer-type screen, and
      a category chosen there becomes the offer type. */
  lemma TitheAndOffering(st: Store, f: Flow, c: Records.OfferCategory)
    requires f.screen == Home && c in st.offerCategories
    ensures Step(st, f, ChooseTithe).screen == ValueInput
    ensures Step(st, f, ChooseTithe).offerType == Tithe
    ensures Step(st, Step(st, f, ChooseTithe), Back).screen == Home
    ensures Step(st, f, ChooseOffering).screen == OfferType
    ensures Step(st, Step(st, f, ChooseOffering), ChooseOfferCategory(c)).screen == ValueInput
    ensures Step(st, Step(st, f, ChooseOffering), ChooseOfferCategory(c)).offerType == c.fields.title
    ensures Step(st, Step(st, Step(st, f, ChooseOffering), ChooseOfferCategory(c)), Back).screen == OfferType
  {
  }

  /** Confirm leaves the amount screen exactly when the keypad amount is
      positive. */
  lemma ConfirmIffPositive(st: Store, f: Flow)
    requires f.screen == ValueInput && Canonical(f.amount)
    ensures Step(st, f, Confirm).screen == PaymentMethod <==> Value(f.amount) > 0
    ensures Step(st, f, Confirm).screen != PaymentMethod ==> Step(st, f, Confirm) == f
  {
    ParseIntOfDigits(f.amount);
  }

  /** The three payment methods behave identically, and the processing timer
      always ends in the success screen. */
  lemma PaymentIsSimulated(st: Store, f: Flow, m: Payment, m': Payment)
    requires f.screen == PaymentMethod
    ensures Step(st, f, Pay(m)) == Step(st, f, Pay(m'))
    ensures Step(st, Step(st, f, Pay(m)), TimerFired).screen == Success
  {
  }

  /** Checkout hands the cart total to the payment screens: the amount
      buffer then reads back, through `parseInt`, as the total in cents. */
  lemma CheckoutAmount(st: Store, f: Flow)
    requires Shown(st, f, Checkout)
    ensures ParseInt(Step(st, f, Checkout).amount) == Some(Total(f.cart))
  {
    ParseIntOfIntToString(Total(f.cart));
  }

  /** Typing the six passcode digits on an empty buffer and submitting opens
      the dashboard; any other six digits leave the login screen up with the
      error shown and an empty buffer. */
  lemma PasscodeLogin(st: Store, f: Flow, ds: seq<Digit>)
    requires f.screen == AdminLogin && f.adminPassword == "" && |ds| == PasscodeLength
    ensures TypePasscode(f.adminPassword, ds) == ds
    ensures var g := f.(adminPassword := TypePasscode(f.adminPassword, ds));
      && Shown(st, g, Submit)
      && (Step(st, g, Submit).screen == AdminDashboard <==> ds == AdminPasscode)
      && Step(st, g, Submit).adminPassword == ""
      && (ds != AdminPasscode ==> Step(st, g, Submit).adminError == WrongPasscode)
  {
    TypePasscodeKeepsFirstSix(f.adminPassword, ds);
    assert f.adminPassword + ds == ds;
  }
}
