/** The whole application: one content store shared by the customer-facing
    kiosk flow and the administration panel, which is mounted when the
    dashboard screen is entered and is the only writer of the store. */
module Totem {
  import opened Store
  import Kiosk
  import Admin

  datatype App = App(store: Store, flow: Kiosk.Flow, panel: Admin.Panel)

  /** An event of the kiosk screens or of the mounted administration panel. */
  datatype Input = OnKiosk(kioskEvent: Kiosk.Event) | OnPanel(panelEvent: Admin.Event)

  /** The application at process start. */
  function Boot(): (app: App)
    ensures app.store == Initial() && app.flow == Kiosk.Start
  {
    App(Initial(), Kiosk.Start, Admin.Open(Initial()))
  }

  predicate OnDashboard(app: App) {
    app.flow.screen == Kiosk.AdminDashboard
  }

  /** Kiosk events never touch the store; entering the dashboard mounts a
      fresh panel on the current store. Panel events only count while the
      dashboard is showing, and their store becomes the application's. */
  function Step(app: App, i: Input): (next: App)
    ensures i.OnKiosk? ==> next.store == app.store
    ensures !OnDashboard(app) ==> next.store == app.store
    ensures i.OnPanel? ==> next.flow == app.flow
    ensures i.OnKiosk? && OnDashboard(next) && !OnDashboard(app) ==> next.panel == Admin.Open(app.store)
  {
    match i
    case OnKiosk(e) =>
      var f := Kiosk.Step(app.store, app.flow, e);
      if f.screen == Kiosk.AdminDashboard && !OnDashboard(app)
      then App(app.store, f, Admin.Open(app.store))
      else app.(flow := f)
    case OnPanel(e) =>
      if OnDashboard(app) then
        var p := Admin.Step(app.panel, e).panel;
        App(p.store, app.flow, p)
      else app
  }

  function Run(app: App, ins: seq<Input>): App
    decreases |ins|
  {
    if ins == [] then app else Run(Step(app, ins[0]), ins[1..])
  }

  ghost predicate Enabled(app: App, i: Input) {
    match i
    case OnKiosk(_) => true
    case OnPanel(e) => Admin.Enabled(app.panel, e)
  }

  ghost predicate RunEnabled(app: App, ins: seq<Input>)
    decreases |ins|
  {
    ins == [] || (Enabled(app, ins[0]) && RunEnabled(Step(app, ins[0]), ins[1..]))
  }

  /** The application's invariant: the store is well formed with valid
      records, the kiosk flow and the panel keep their own invariants, and
      while the dashboard shows, the panel edits the application's store. */
  ghost predicate Inv(app: App) {
    && WellFormed(app.store)
    && Admin.RecordsValid(app.store)
    && Kiosk.Inv(app.store, app.flow)
    && Admin.Inv(app.panel)
    && (OnDashboard(app) ==> app.panel.store == app.store)
  }

  lemma BootInv()
    ensures Inv(Boot())
  {
    Admin.OpenInitial();
    Admin.InvMeansValidStore(Admin.Open(Initial()));
    Kiosk.StartInv(Initial());
  }

  lemma StepInv(app: App, i: Input)
    requires Inv(app) && Enabled(app, i)
    ensures Inv(Step(app, i))
  {
    match i
    case OnKiosk(e) =>
      Kiosk.StepInv(app.store, app.flow, e);
      Admin.InvMeansValidStore(app.panel.(store := app.store));
    case OnPanel(e) =>
      if OnDashboard(app) {
        Admin.StepInv(app.panel, e);
        Admin.InvMeansValidStore(Admin.Step(app.panel, e).panel);
      }
  }

  /** Every session that starts at boot keeps the invariant: whatever the
      administrator does, the kiosk only ever offers products with a name and
      a non-zero price, and the store never holds two records with one id. */
  lemma {:induction false} RunInv(app: App, ins: seq<Input>)
    requires Inv(app) && RunEnabled(app, ins)
    ensures Inv(Run(app, ins))
    decreases |ins|
  {
    if ins != [] {
      StepInv(app, ins[0]);
      RunInv(Step(app, ins[0]), ins[1..]);
    }
  }

  /** A configuration saved on the dashboard is what the processing screen
      uses afterwards: with the card machine enabled, its status names the
      saved address. */
  lemma SavedConfigReachesKiosk(app: App)
    requires OnDashboard(app)
    ensures Step(app, OnPanel(Admin.SaveConfig)).store.paymentConfig == app.panel.configForm
    ensures app.panel.configForm.cardMachineEnabled ==>
      Kiosk.Mentions(Kiosk.ProcessingStatus(Step(app, OnPanel(Admin.SaveConfig)).store.paymentConfig),
                     app.panel.configForm.cardMachineIp)
  {
  }

  /** Panel events sent while the dashboard is not showing are ignored. */
  lemma PanelNeedsLogin(app: App, e: Admin.Event)
    requires !OnDashboard(app)
    ensures Step(app, OnPanel(e)) == app
  {
  }
}
