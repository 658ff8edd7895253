/** The settings page: its tab bar and the website management panel that
    lists the company's websites and creates new ones. */
module Settings {
  import opened Wrappers
  import opened Strings
  import opened Api
  import opened Tenant

  const NoCompanyAlert := "Er is geen company_id gevonden voor je profiel. Log opnieuw in of laat je account koppelen aan een company."
  const MissingFieldsAlert := "Vul zowel naam als hoofddomein in."
  const DefaultCreateError := "Kon website niet aanmaken"

  /** The fields of the website management panel. */
  datatype PanelView = PanelView(rows: seq<Website>, loading: bool, name: string, domain: string, saving: bool)

  /** The insert `create` asks the backend for. */
  datatype CreateInput = CreateInput(companyId: string, name: string, primaryDomain: string)

  /** How the backend calls end: a created website or a listed set of rows, or a
      thrown error with its (possibly missing) message. */
  datatype CreateOutcome = Created | CreateThrew(message: Option<string>)
  datatype LoadOutcome = Loaded(rows: seq<Website>) | LoadThrew(message: Option<string>)

  /** The new panel, the alert shown (if any) and the insert requested (if any). */
  datatype CreateResult = CreateResult(view: PanelView, alert: Option<string>, call: Option<CreateInput>)

  /** The company id of the signed-in profile, "" when there is none. */
  function CompanyIdOf(profile: Option<Profile>): (id: string)
    ensures id != "" <==> profile.Some? && profile.value.companyId != ""
    ensures id != "" ==> id == profile.value.companyId
  {
    if profile.Some? then profile.value.companyId else ""
  }

  /** Whether the "Toevoegen" button is enabled. */
  predicate CanCreate(profile: Option<Profile>, v: PanelView) {
    CompanyIdOf(profile) != "" && v.name != "" && v.domain != "" && !v.saving
  }

  /** `load` once the listing has come back: loading is cleared in every case,
      the rows replaced only when the listing succeeded. */
  function AfterLoad(v: PanelView, outcome: LoadOutcome): (w: PanelView)
    ensures !w.loading
    ensures outcome.Loaded? ==> w.rows == outcome.rows
    ensures outcome.LoadThrew? ==> w.rows == v.rows
    ensures w.name == v.name && w.domain == v.domain && w.saving == v.saving
  {
    match outcome
    case Loaded(rows) => v.(rows := rows, loading := false)
    case LoadThrew(_) => v.(loading := false)
  }

  /** The alert for an error caught by `create`. */
  function ErrorAlert(message: Option<string>): string {
    OrElse(message, DefaultCreateError)
  }

  /** The whole of `create`: validation, the insert, the reset and reload on
      success, the alert on any error, and `saving` cleared at the end. */
  function AfterCreate(v: PanelView, profile: Option<Profile>, created: CreateOutcome, reload: LoadOutcome): CreateResult {
    var companyId := CompanyIdOf(profile);
    if companyId == "" then CreateResult(v, Some(NoCompanyAlert), None)
    else if v.name == "" || v.domain == "" then CreateResult(v, Some(MissingFieldsAlert), None)
    else
      var call := Some(CreateInput(companyId, v.name, v.domain));
      match created
      case CreateThrew(m) => CreateResult(v.(saving := false), Some(ErrorAlert(m)), call)
      case Created =>
        var reloaded := AfterLoad(v.(name := "", domain := "", saving := true), reload);
        var alert := if reload.LoadThrew? then Some(ErrorAlert(reload.message)) else None;
        CreateResult(reloaded.(saving := false), alert, call)
  }

  /** Without a company id, `create` alerts and changes nothing. */
  lemma NoCompanyChangesNothing(v: PanelView, profile: Option<Profile>, created: CreateOutcome, reload: LoadOutcome)
    requires profile.None? || profile.value.companyId == ""
    ensures AfterCreate(v, profile, created, reload) == CreateResult(v, Some(NoCompanyAlert), None)
  {
  }

  /** With a company but an empty name or domain, `create` alerts and changes nothing. */
  lemma MissingFieldsChangeNothing(v: PanelView, profile: Option<Profile>, created: CreateOutcome, reload: LoadOutcome)
    requires CompanyIdOf(profile) != ""
    requires v.name == "" || v.domain == ""
    ensures AfterCreate(v, profile, created, reload) == CreateResult(v, Some(MissingFieldsAlert), None)
  {
  }

  /** The backend is asked for an insert exactly when a company, a name and a
      domain are present, and then with exactly those values. */
  lemma InsertIff(v: PanelView, profile: Option<Profile>, created: CreateOutcome, reload: LoadOutcome)
    ensures AfterCreate(v, profile, created, reload).call.Some? <==>
      profile.Some? && profile.value.companyId != "" && v.name != "" && v.domain != ""
    ensures AfterCreate(v, profile, created, reload).call.Some? ==>
      AfterCreate(v, profile, created, reload).call.value == CreateInput(profile.value.companyId, v.name, v.domain)
  {
  }

  /** An enabled button always leads to an insert. */
  lemma EnabledButtonInserts(v: PanelView, profile: Option<Profile>, created: CreateOutcome, reload: LoadOutcome)
    requires CanCreate(profile, v)
    ensures AfterCreate(v, profile, created, reload).call.Some?
  {
    InsertIff(v, profile, created, reload);
  }

  /** `create` itself does not look at `saving`: only the disabled button keeps
      a second insert from starting while one is in progress. */
  lemma CreateIgnoresSaving(v: PanelView, profile: Option<Profile>, created: CreateOutcome, reload: LoadOutcome)
    ensures AfterCreate(v.(saving := true), profile, created, reload).call == AfterCreate(v.(saving := false), profile, created, reload).call
  {
  }

  /** After a successful insert and listing, the form is emptied, the list
      shows the new rows and nothing is loading, saving or alerted. */
  lemma SuccessResetsAndReloads(v: PanelView, profile: Option<Profile>, rows: seq<Website>)
    requires CompanyIdOf(profile) != "" && v.name != "" && v.domain != ""
    ensures AfterCreate(v, profile, Created, Loaded(rows)).view == PanelView(rows, false, "", "", false)
    ensures AfterCreate(v, profile, Created, Loaded(rows)).alert == None
  {
  }

  /** A failed insert keeps what was typed and alerts its message, or the default. */
  lemma FailureKeepsInput(v: PanelView, profile: Option<Profile>, message: Option<string>, reload: LoadOutcome)
    requires CompanyIdOf(profile) != "" && v.name != "" && v.domain != ""
    ensures AfterCreate(v, profile, CreateThrew(message), reload).view == v.(saving := false)
    ensures AfterCreate(v, profile, CreateThrew(message), reload).alert == Some(OrElse(message, DefaultCreateError))
  {
  }

  /** Once past validation, `saving` is false afterwards whatever happened. */
  lemma SavingEndsFalse(v: PanelView, profile: Option<Profile>, created: CreateOutcome, reload: LoadOutcome)
    requires AfterCreate(v, profile, created, reload).call.Some?
    ensures !AfterCreate(v, profile, created, reload).view.saving
  {
  }

  /** The website management panel. */
  class WebsitesPanel {
    var rows: seq<Website>
    var loading: bool
    var name: string
    var domain: string
    var saving: bool

    constructor ()
      ensures rows == [] && loading && name == "" && domain == "" && !saving
    {
      rows := [];
      loading := true;
      name := "";
      domain := "";
      saving := false;
    }

    function View(): PanelView
      reads this
    {
      PanelView(rows, loading, name, domain, saving)
    }

    method SetName(value: string)
      modifies this
      ensures View() == old(View()).(name := value)
    {
      name := value;
    }

    method SetDomain(value: string)
      modifies this
      ensures View() == old(View()).(domain := value)
    {
      domain := value;
    }

    /** `load`: loading is set, the listing awaited, loading cleared in `finally`. */
    method Load(outcome: LoadOutcome)
      modifies this
      ensures View() == AfterLoad(old(View()), outcome)
    {
      loading := true;
      if outcome.Loaded? {
        rows := outcome.rows;
      }
      loading := false;
    }

    /** `create`, with the outcomes of the insert and of the reload as inputs. */
    method Create(profile: Option<Profile>, created: CreateOutcome, reload: LoadOutcome) returns (alert: Option<string>, call: Option<CreateInput>)
      modifies this
      ensures CreateResult(View(), alert, call) == AfterCreate(old(View()), profile, created, reload)
    {
      if profile.None? || profile.value.companyId == "" {
        return Some(NoCompanyAlert), None;
      }
      if name == "" || domain == "" {
        return Some(MissingFieldsAlert), None;
      }
      saving := true;
      call := Some(CreateInput(profile.value.companyId, name, domain));
      alert := None;
      match created {
        case CreateThrew(m) =>
          alert := Some(ErrorAlert(m));
        case Created =>
          name := "";
          domain := "";
          Load(reload);
          if reload.LoadThrew? {
            alert := Some(ErrorAlert(reload.message));
          }
      }
      saving := false;
    }
  }

  /** The tabs of the settings page. */
  datatype Tab = Koppelingen | Score | Websites | Gebruikers

  /** The key each tab button carries. */
  function TabKey(t: Tab): string {
    match t
    case Koppelingen => "koppelingen"
    case Score => "score"
    case Websites => "websites"
    case Gebruikers => "gebruikers"
  }

  /** A button is highlighted iff its key is the current tab's key, so exactly
      the current tab's button is. */
  lemma HighlightIsCurrentTab(current: Tab, button: Tab)
    ensures TabKey(current) == TabKey(button) <==> current == button
  {
    if current != button {
      assert TabKey(current)[0] != TabKey(button)[0];
    }
  }

  /** The settings page: which tab is open. */
  class SettingsPage {
    var tab: Tab

    constructor ()
      ensures tab == Koppelingen
    {
      tab := Koppelingen;
    }

    method Select(t: Tab)
      modifies this
      ensures tab == t
    {
      tab := t;
    }
  }
}
