/**
 * The node-creation wizard's store: the state the wizard collects step by step and
 * the mutations that change it.
 */
module CreateStore {
  import opened Wrappers

  datatype Network = Testnet | Mainnet

  /**
   * The node settings held by the wizard. The keys of the defaults are always
   * present; `watchtowerClient` is not among them and stays absent (`None`) until a
   * settings object supplies it.
   */
  datatype Settings = Settings(
    autopilot: bool,
    grpc: bool,
    rest: bool,
    tor: bool,
    keysend: bool,
    wumbo: bool,
    alias: string,
    color: string,
    whitelist: seq<string>,
    watchtowerClient: Option<bool>)

  /** A settings object handed to a mutation: any of its keys may be missing. */
  datatype SettingsPatch = SettingsPatch(
    autopilot: Option<bool>,
    grpc: Option<bool>,
    rest: Option<bool>,
    tor: Option<bool>,
    keysend: Option<bool>,
    wumbo: Option<bool>,
    alias: Option<string>,
    color: Option<string>,
    whitelist: Option<seq<string>>,
    watchtowerClient: Option<bool>)

  /** The argument of the node-type mutation. */
  datatype NodeTypePayload = NodeTypePayload(network: Network, trial: bool)

  /** `defaultSettings`: a value for every key except `watchtower_client`. */
  function DefaultSettings(): (p: SettingsPatch)
    ensures p.autopilot.Some? && p.grpc.Some? && p.rest.Some? && p.tor.Some? && p.keysend.Some?
    ensures p.wumbo.Some? && p.alias.Some? && p.color.Some? && p.whitelist.Some?
    ensures p.watchtowerClient.None?
  {
    SettingsPatch(Some(false), Some(true), Some(true), Some(false), Some(true), Some(true),
                  Some(""), Some("#EF820D"), Some([]), None)
  }

  /** A settings object with no keys. */
  const NoSettings: SettingsPatch :=
    SettingsPatch(None, None, None, None, None, None, None, None, None, None)

  /** Every key of the defaults holds its default value: assigning the defaults changes nothing. */
  predicate HasDefaults(s: Settings) {
    Assign(s, DefaultSettings()) == s
  }

  /**
   * `Object.assign(target, source)` on settings: every key present in `p` takes
   * `p`'s value, every other key keeps the one in `s`.
   */
  function Assign(s: Settings, p: SettingsPatch): Settings {
    Settings(
      p.autopilot.GetOr(s.autopilot),
      p.grpc.GetOr(s.grpc),
      p.rest.GetOr(s.rest),
      p.tor.GetOr(s.tor),
      p.keysend.GetOr(s.keysend),
      p.wumbo.GetOr(s.wumbo),
      p.alias.GetOr(s.alias),
      p.color.GetOr(s.color),
      p.whitelist.GetOr(s.whitelist),
      if p.watchtowerClient.Some? then p.watchtowerClient else s.watchtowerClient)
  }

  /**
   * The empty target `{}`. Its values are placeholders: `Object.assign` with the
   * defaults overwrites all of them, and it has no `watchtowerClient`.
   */
  const EmptyTarget: Settings := Settings(false, false, false, false, false, false, "", "", [], None)

  /** `Object.assign({}, defaultSettings)`: exactly the keys of the defaults. */
  function CopyOfDefaults(): (s: Settings)
    ensures HasDefaults(s) && s.watchtowerClient.None?
  {
    Assign(EmptyTarget, DefaultSettings())
  }

  /** Keys of `q` win over keys of `p`: the source object equivalent to assigning `p`, then `q`. */
  function Overlay(p: SettingsPatch, q: SettingsPatch): SettingsPatch {
    SettingsPatch(
      if q.autopilot.Some? then q.autopilot else p.autopilot,
      if q.grpc.Some? then q.grpc else p.grpc,
      if q.rest.Some? then q.rest else p.rest,
      if q.tor.Some? then q.tor else p.tor,
      if q.keysend.Some? then q.keysend else p.keysend,
      if q.wumbo.Some? then q.wumbo else p.wumbo,
      if q.alias.Some? then q.alias else p.alias,
      if q.color.Some? then q.color else p.color,
      if q.whitelist.Some? then q.whitelist else p.whitelist,
      if q.watchtowerClient.Some? then q.watchtowerClient else p.watchtowerClient)
  }

  /** Assigning an object with no keys changes nothing. */
  lemma AssignNothing(s: Settings)
    ensures Assign(s, NoSettings) == s
  {
  }

  /** Assigning the same object twice is the same as assigning it once. */
  lemma AssignIdempotent(s: Settings, p: SettingsPatch)
    ensures Assign(Assign(s, p), p) == Assign(s, p)
  {
  }

  /** Two assignments in a row are one assignment of the overlaid objects. */
  lemma AssignTwice(s: Settings, p: SettingsPatch, q: SettingsPatch)
    ensures Assign(Assign(s, p), q) == Assign(s, Overlay(p, q))
  {
  }

  /** Assigning the defaults resets every default key and keeps `watchtowerClient`. */
  lemma AssignDefaults(s: Settings)
    ensures HasDefaults(Assign(s, DefaultSettings()))
    ensures Assign(s, DefaultSettings()).watchtowerClient == s.watchtowerClient
    ensures Assign(s, DefaultSettings()) == CopyOfDefaults().(watchtowerClient := s.watchtowerClient)
  {
  }

  /** Everything the wizard holds, as one value. */
  datatype WizardState = WizardState(
    nodeName: string,
    network: Network,
    trial: bool,
    seed: seq<string>,
    macaroonBackup: bool,
    settings: Settings,
    newNodeID: string,
    currentStep: int)

  /** The state right after the wizard opens. */
  function InitialState(): WizardState {
    WizardState("", Testnet, false, [], true, CopyOfDefaults(), "", 0)
  }

  /** The state after `WIPE`. */
  function Wiped(st: WizardState): WizardState {
    st.(settings := Assign(st.settings, DefaultSettings()), nodeName := "", newNodeID := "")
  }

  /**
   * `WIPE` resets the default keys of the settings, the name and the new node's id,
   * and keeps the seed, the step, the network, the trial flag, the macaroon-backup
   * flag and `watchtowerClient`.
   */
  lemma WipedResets(st: WizardState)
    ensures HasDefaults(Wiped(st).settings) && Wiped(st).nodeName == "" && Wiped(st).newNodeID == ""
    ensures Wiped(st).settings.watchtowerClient == st.settings.watchtowerClient
    ensures Wiped(st).seed == st.seed && Wiped(st).currentStep == st.currentStep
    ensures Wiped(st).network == st.network && Wiped(st).trial == st.trial
    ensures Wiped(st).macaroonBackup == st.macaroonBackup
  {
    AssignDefaults(st.settings);
  }

  /** Wiping twice is wiping once. */
  lemma WipedIdempotent(st: WizardState)
    ensures Wiped(Wiped(st)) == Wiped(st)
  {
    AssignIdempotent(st.settings, DefaultSettings());
  }

  /** Wiping a wizard that was just opened leaves it as it was. */
  lemma WipedInitial()
    ensures Wiped(InitialState()) == InitialState()
  {
  }

  /** The store module: fields changed only through its mutations. */
  class CreateModule {
    var nodeName: string
    var network: Network
    var trial: bool
    var seed: seq<string>
    var macaroonBackup: bool
    var settings: Settings
    var newNodeID: string
    var currentStep: int

    function Snapshot(): WizardState
      reads this
    {
      WizardState(nodeName, network, trial, seed, macaroonBackup, settings, newNodeID, currentStep)
    }

    /** The field initialisers. */
    constructor ()
      ensures Snapshot() == InitialState()
      ensures settings.watchtowerClient.None? && HasDefaults(settings)
    {
      nodeName := "";
      network := Testnet;
      trial := false;
      seed := [];
      macaroonBackup := true;
      settings := CopyOfDefaults();
      newNodeID := "";
      currentStep := 0;
    }

    /** `NODE_NAME` */
    method SetNodeName(name: string)
      modifies this
      ensures Snapshot() == old(Snapshot()).(nodeName := name)
    {
      nodeName := name;
    }

    /** `MACAROON_BACKUP` */
    method SetMacaroonBackup(v: bool)
      modifies this
      ensures Snapshot() == old(Snapshot()).(macaroonBackup := v)
    {
      macaroonBackup := v;
    }

    /** `STEP` */
    method SetStep(step: int)
      modifies this
      ensures Snapshot() == old(Snapshot()).(currentStep := step)
    {
      currentStep := step;
    }

    /** `NODE_TYPE` */
    method SetNodeType(payload: NodeTypePayload)
      modifies this
      ensures Snapshot() == old(Snapshot()).(network := payload.network, trial := payload.trial)
    {
      network := payload.network;
      trial := payload.trial;
    }

    /** `SEED`: store the seed; a non-empty seed moves the wizard to step 2. */
    method SetSeed(newSeed: seq<string>)
      modifies this
      ensures |newSeed| > 0 ==> currentStep == 2
      ensures |newSeed| == 0 ==> currentStep == old(currentStep)
      ensures Snapshot() == old(Snapshot()).(seed := newSeed, currentStep := if |newSeed| > 0 then 2 else old(currentStep))
    {
      seed := newSeed;
      if |newSeed| > 0 {
        currentStep := 2;
      }
    }

    /** `SETTINGS`: a fresh settings object with `p`'s keys over the current ones. */
    method ApplySettings(p: SettingsPatch)
      modifies this
      ensures Snapshot() == old(Snapshot()).(settings := Assign(old(settings), p))
    {
      settings := Assign(settings, p);
    }

    /** `NEW_NODE_ID` */
    method SetNewNodeId(nodeID: string)
      modifies this
      ensures Snapshot() == old(Snapshot()).(newNodeID := nodeID)
    {
      newNodeID := nodeID;
    }

    /** `AUTOFILL_WHITELIST`: the whitelist becomes exactly the one address. */
    method AutofillWhitelist(ip: string)
      modifies this
      ensures settings.whitelist == [ip]
      ensures Snapshot() == old(Snapshot()).(settings := old(settings).(whitelist := [ip]))
    {
      settings := settings.(whitelist := [ip]);
    }

    /** `HYDRATE_SETTINGS`: `p`'s keys assigned onto the current settings object. */
    method HydrateSettings(p: SettingsPatch)
      modifies this
      ensures Snapshot() == old(Snapshot()).(settings := Assign(old(settings), p))
    {
      settings := Assign(settings, p);
    }

    /** `WIPE` */
    method Wipe()
      modifies this
      ensures Snapshot() == Wiped(old(Snapshot()))
    {
      settings := Assign(settings, DefaultSettings());
      nodeName := "";
      newNodeID := "";
    }
  }
}
