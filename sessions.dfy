/**
 * Session bookkeeping in the background page: a session is a contextual identity (a
 * cookie store) with a controller tab running the scripting panel, recorded in the
 * `sessions` table.
 */
module Sessions {
  import opened Optional
  import opened Decimal
  import opened Browser

  /** The index of the last '-' in `s`, or -1 when there is none. */
  function LastDash(s: string): (k: int)
    ensures -1 <= k < |s|
  {
    if s == [] then -1 else if s[|s| - 1] == '-' then |s| - 1 else LastDash(s[..|s| - 1])
  }

  /** `LastDash` finds a '-' when there is one, and no '-' comes after it. */
  lemma {:induction false} LastDashFindsLast(s: string)
    ensures var k := LastDash(s);
            (k >= 0 ==> s[k] == '-')
            && (k == -1 <==> '-' !in s)
            && forall j :: k < j < |s| ==> s[j] != '-'
  {
    if s != [] && s[|s| - 1] != '-' {
      var p := s[..|s| - 1];
      LastDashFindsLast(p);
      assert forall j :: 0 <= j < |p| ==> s[j] == p[j];
      assert s == p + [s[|s| - 1]];
    }
  }

  /** The text after the last '-' of `s`, as `s.split('-').slice(-1)[0]` gives it. */
  function LastSegment(s: string): (r: string)
  {
    s[LastDash(s) + 1..]
  }

  /** The last segment is the tail of the id after its last '-': it holds no '-' itself. */
  lemma LastSegmentIsTail(s: string)
    ensures var r := LastSegment(s);
            && |r| <= |s| && r == s[|s| - |r|..]
            && '-' !in r
            && (|r| < |s| ==> s[|s| - |r| - 1] == '-')
  {
    LastDashFindsLast(s);
  }

  /** The name `createSession` gives a new identity: its context number, at least four digits. */
  function SessionName(cookieStoreId: string): (name: string)
  {
    "Zombie #" + PadStart(NumberToString(ParseInt(LastSegment(cookieStoreId))), 4, '0')
  }

  /**
   * When the last segment of the cookie store id reads as a number, the name is
   * "Zombie #" followed by that number in at least four digits, leading zeros only as padding.
   */
  lemma SessionNameCarriesNumber(cookieStoreId: string, n: int)
    requires ParseInt(LastSegment(cookieStoreId)) == Some(n)
    ensures n >= 0
    ensures var name := SessionName(cookieStoreId);
            |name| == 8 + (if |NatToString(n)| >= 4 then |NatToString(n)| else 4)
            && name[..8] == "Zombie #"
            && AllDigits(name[8..])
            && DigitsValue(name[8..]) == n
  {
    var segment := LastSegment(cookieStoreId);
    LastDashFindsLast(cookieStoreId);
    ParseIntWithoutMinus(segment);
    PaddedDigits(n);
    var padded := PadStart(NumberToString(Some(n)), 4, '0');
    assert SessionName(cookieStoreId) == "Zombie #" + padded;
  }

  /** A last segment without digits gives NaN, which `padStart` turns into "0NaN". */
  lemma SessionNameWithoutNumber(cookieStoreId: string)
    requires ParseInt(LastSegment(cookieStoreId)) == None
    ensures SessionName(cookieStoreId) == "Zombie #0NaN"
  {
    assert PadStart("NaN", 4, '0') == "0NaN";
  }

  /** Firefox's container ids end in the context number: "firefox-container-7" is "Zombie #0007". */
  lemma SessionNameExample()
    ensures SessionName("firefox-container-7") == "Zombie #0007"
  {
    assert LastDash("firefox-container-7") == 17;
    assert LastSegment("firefox-container-7") == "7";
    ParseIntOfDigits("7");
    assert NatToString(7) == "7";
    assert PadStart("7", 4, '0') == "0007";
  }

  datatype Tab = Tab(cookieStoreId: string, pinned: bool)

  /** The calls `createSession` and `destroySession` make, in the order they make them. */
  datatype Effect =
    | CreateIdentity(placeholder: string)
    | RenameIdentity(cookieStoreId: string, name: string)
    | OpenPanelWindow(cookieStoreId: string)
    | AddSessionRecord(cookieStoreId: string, controllerTabId: TabId)
    | PinTab(tabId: TabId)
    | RemoveTabs(tabIds: set<TabId>)
    | DeleteSessionRecord(cookieStoreId: string)
    | RemoveIdentity(cookieStoreId: string)

  /** `win.tabs?.[0]?.id ?? 0`: the panel window's first tab, 0 when the browser reports none. */
  function ControllerTabId(windowTab: Option<TabId>): TabId {
    if windowTab.Some? then windowTab.value else 0
  }

  /** The session record and the pin, made only for a positive controller tab id. */
  function ControllerEffects(id: string, windowTab: Option<TabId>): seq<Effect> {
    var tabId := ControllerTabId(windowTab);
    if tabId > 0 then [AddSessionRecord(id, tabId), PinTab(tabId)] else []
  }

  /**
   * The calls of `createSession` for a new identity `id`, renamed to `name`, whose panel
   * window opened `windowTab`.
   */
  function CreateEffects(id: string, name: string, windowTab: Option<TabId>): seq<Effect> {
    [CreateIdentity("Zombie #nnn"), RenameIdentity(id, name), OpenPanelWindow(id)]
    + ControllerEffects(id, windowTab)
  }

  /** A session record is written, and the controller pinned, exactly when the tab id is positive. */
  lemma CreateRecordsOnlyPositiveTab(id: string, name: string, windowTab: Option<TabId>)
    ensures var e := CreateEffects(id, name, windowTab);
            var tabId := ControllerTabId(windowTab);
            (AddSessionRecord(id, tabId) in e <==> tabId > 0)
            && (PinTab(tabId) in e <==> tabId > 0)
            && e[1] == RenameIdentity(id, name)
            && (tabId > 0 ==> |e| == 5 && e[3] == AddSessionRecord(id, tabId) && e[4] == PinTab(tabId))
  {
  }

  /** Which collaborator calls of `destroySession` throw, each with its message. */
  datatype TeardownFaults = TeardownFaults(
    query: Option<string>,           // tabs.query
    removeTabs: Option<string>,      // tabs.remove
    deleteRecord: Option<string>,    // db.sessions.delete
    removeIdentity: Option<string>)  // contextualIdentities.remove

  /** The calls of `destroySession(id)`: the `try` part, then the `finally` part. */
  function DestroyEffects(id: string, doomed: set<TabId>, f: TeardownFaults): seq<Effect> {
    (if f.query.None? then [RemoveTabs(doomed)] else [])
    + [DeleteSessionRecord(id)]
    + (if f.deleteRecord.None? then [RemoveIdentity(id)] else [])
  }

  /** The rejection `destroySession` ends with: a throw in `finally` replaces one from `try`. */
  function DestroyError(f: TeardownFaults): Option<string> {
    if f.deleteRecord.Some? then f.deleteRecord
    else if f.removeIdentity.Some? then f.removeIdentity
    else if f.query.Some? then f.query
    else f.removeTabs
  }

  /**
   * Whatever the tab cleanup does, the record is deleted; the identity is removed after the
   * record and only when deleting the record succeeded; tab removal, when tried, comes first.
   */
  lemma TeardownOrder(id: string, doomed: set<TabId>, f: TeardownFaults)
    ensures var e := DestroyEffects(id, doomed, f);
            (exists i :: 0 <= i < |e| && e[i] == DeleteSessionRecord(id))
            && (RemoveIdentity(id) in e <==> f.deleteRecord.None?)
            && (RemoveIdentity(id) in e ==> e[|e| - 1] == RemoveIdentity(id) && e[|e| - 2] == DeleteSessionRecord(id))
            && (f.query.None? ==> e[0] == RemoveTabs(doomed))
  {
    var e := DestroyEffects(id, doomed, f);
    var i := if f.query.None? then 1 else 0;
    assert e[i] == DeleteSessionRecord(id);
  }

  /** The tabs open in cookie store `id`. */
  function TabsIn(tabs: map<TabId, Tab>, id: string): set<TabId> {
    set t | t in tabs && tabs[t].cookieStoreId == id
  }

  /** The browser and database state that session bookkeeping changes. */
  class SessionHost {
    var identities: map<string, string>   // contextual identities: cookie store id to name
    var sessions: map<string, TabId>       // the `sessions` table: cookie store id to controller tab
    var tabs: map<TabId, Tab>              // open tabs
    var effects: seq<Effect>               // the calls made so far, oldest first

    constructor ()
      ensures identities == map[] && sessions == map[] && tabs == map[] && effects == []
    {
      identities, sessions, tabs, effects := map[], map[], map[], [];
    }

    /**
     * The first half of `createSession`: the identity is created under a placeholder name
     * and, once the browser has given it `cookieStoreId`, renamed to `name`.
     */
    method NameIdentity(cookieStoreId: string, name: string)
      modifies this
      ensures identities == old(identities)[cookieStoreId := name]
      ensures effects == old(effects) + [CreateIdentity("Zombie #nnn"), RenameIdentity(cookieStoreId, name)]
      ensures sessions == old(sessions) && tabs == old(tabs)
    {
      effects := effects + [CreateIdentity("Zombie #nnn")];
      effects := effects + [RenameIdentity(cookieStoreId, name)];
      identities := identities[cookieStoreId := name];
    }

    /**
     * The second half of `createSession`: open the panel window in the identity; when its
     * first tab has a positive id, record the session and pin that tab.
     */
    method OpenController(cookieStoreId: string, windowTab: Option<TabId>)
      modifies this
      ensures var tabId := ControllerTabId(windowTab);
              && sessions == (if tabId > 0 then old(sessions)[cookieStoreId := tabId] else old(sessions))
              && tabs == (if windowTab.None? then old(tabs)
                          else old(tabs)[windowTab.value := Tab(cookieStoreId, tabId > 0)])
      ensures effects == old(effects) + [OpenPanelWindow(cookieStoreId)] + ControllerEffects(cookieStoreId, windowTab)
      ensures identities == old(identities)
    {
      effects := effects + [OpenPanelWindow(cookieStoreId)];
      if windowTab.Some? {
        tabs := tabs[windowTab.value := Tab(cookieStoreId, false)];
      }
      var tabId := if windowTab.Some? then windowTab.value else 0;
      if tabId > 0 {
        effects := effects + [AddSessionRecord(cookieStoreId, tabId)];
        sessions := sessions[cookieStoreId := tabId];
        effects := effects + [PinTab(tabId)];
        tabs := tabs[tabId := Tab(cookieStoreId, true)];
      }
    }

    /**
     * `createSession` once the new identity's name is fixed: name the identity, then open
     * and record its controller.
     */
    method CreateNamedSession(cookieStoreId: string, name: string, windowTab: Option<TabId>)
      modifies this
      ensures identities == old(identities)[cookieStoreId := name]
      ensures var tabId := ControllerTabId(windowTab);
              && sessions == (if tabId > 0 then old(sessions)[cookieStoreId := tabId] else old(sessions))
              && tabs == (if windowTab.None? then old(tabs)
                          else old(tabs)[windowTab.value := Tab(cookieStoreId, tabId > 0)])
      ensures effects == old(effects) + CreateEffects(cookieStoreId, name, windowTab)
    {
      NameIdentity(cookieStoreId, name);
      OpenController(cookieStoreId, windowTab);
    }

    /**
     * `createSession()`: the browser names the new identity `cookieStoreId`, and reports
     * `windowTab` as the first tab of the panel window.
     */
    method CreateSession(cookieStoreId: string, windowTab: Option<TabId>)
      modifies this
      ensures identities == old(identities)[cookieStoreId := SessionName(cookieStoreId)]
      ensures var tabId := ControllerTabId(windowTab);
              && sessions == (if tabId > 0 then old(sessions)[cookieStoreId := tabId] else old(sessions))
              && tabs == (if windowTab.None? then old(tabs)
                          else old(tabs)[windowTab.value := Tab(cookieStoreId, tabId > 0)])
      ensures effects == old(effects) + CreateEffects(cookieStoreId, SessionName(cookieStoreId), windowTab)
    {
      CreateNamedSession(cookieStoreId, SessionName(cookieStoreId), windowTab);
    }

    /**
     * `destroySession(cookieStoreId)`: close the session's tabs, then, in `finally`, delete
     * its record and remove its identity. `faults` says which calls throw; a failed tab
     * removal leaves the tabs as they were. The result is the error it rejects with.
     */
    method DestroySession(cookieStoreId: string, faults: TeardownFaults) returns (error: Option<string>)
      modifies this
      ensures var doomed := TabsIn(old(tabs), cookieStoreId);
              tabs == if faults.query.None? && faults.removeTabs.None? then old(tabs) - doomed else old(tabs)
      ensures sessions == if faults.deleteRecord.None? then old(sessions) - {cookieStoreId} else old(sessions)
      ensures identities == if faults.deleteRecord.None? && faults.removeIdentity.None?
                            then old(identities) - {cookieStoreId} else old(identities)
      ensures effects == old(effects) + DestroyEffects(cookieStoreId, TabsIn(old(tabs), cookieStoreId), faults)
      ensures error == DestroyError(faults)
    {
      // try
      var thrown: Option<string> := None;
      if faults.query.Some? {
        thrown := faults.query;
      } else {
        var doomed := TabsIn(tabs, cookieStoreId);
        effects := effects + [RemoveTabs(doomed)];
        if faults.removeTabs.Some? {
          thrown := faults.removeTabs;
        } else {
          tabs := tabs - doomed;
        }
      }
      // finally
      effects := effects + [DeleteSessionRecord(cookieStoreId)];
      if faults.deleteRecord.Some? {
        return faults.deleteRecord;
      }
      sessions := sessions - {cookieStoreId};
      effects := effects + [RemoveIdentity(cookieStoreId)];
      if faults.removeIdentity.Some? {
        return faults.removeIdentity;
      }
      identities := identities - {cookieStoreId};
      return thrown;
    }
  }
}
