/** Two small states on which the file store and the database answer differently. */
module Examples {
  import opened Basics
  import opened TradeTable
  import opened Model
  import opened Handlers
  import opened Scopes
  import opened ScopedImports
  import opened BlankBundles

  /** Every text is the moment zero and every signature verifies. */
  const PLATFORM: Platform :=
    Platform((_: string) => "", (_: Payload) => "", (_: int) => "", (_: string) => Some(0),
             (_: string, _: Signable) => "", (_: string, _: Signable, _: string) => true, false)

  const ORACLE: Oracle := Oracle(0, 0, "new", (_: nat) => "mail", "", "")

  /** Two colonies, and an administrator who may relay between them. */
  const COLONIES: map<Id, Colony> :=
    map["seller" := NewColony("seller", "key", ""), "buyer" := NewColony("buyer", "", "").(trusted := map["seller" := "key"])]

  const RELAYED: State :=
    State(COLONIES, map["root" := User("", ["super_admin"], "", "", true, true)], map["token" := Session("root", "")],
          map[], map["b" := Bundle("seller", "buyer", "first", [])], map[])

  /** Importing a second bundle under a used id: memory keeps the second, the database the first. */
  lemma BundleIsOverwritten()
    ensures var again := Bundle("seller", "buyer", "second", []);
            var r := ImportBundle(PLATFORM, ORACLE, RELAYED, "token", "buyer", "b", again);
            && r.Ok? && r.value.0.bundles["b"] == again
            && KeepBundles(RELAYED, r.value.0).bundles["b"] == RELAYED.bundles["b"] != again
  {
    hide PostColonies;
    var again := Bundle("seller", "buyer", "second", []);
    assert CheckImport(PLATFORM, ORACLE, RELAYED, "token", "buyer", again) == Ok("root");
    assert ImportUpTo(PLATFORM, ORACLE, RELAYED, "seller", "buyer", [], 0) == Ok(Progress(RELAYED, 0, 0, [], []));
  }

  /** The same, with a completed trade that came in under the empty id. */
  const COMPLETED: State :=
    RELAYED.(trades := map["" := Trade("ore", 1, "s", "b", "seller", "buyer", Completed, "", "", "", "", "", "", "", "", "", "", "", "", "")])

  const REPEATED: Envelope :=
    Envelope("e", "settlement", "seller", "buyer",
             BLANK_BODY.(seller := "s", sellerColony := "seller", acceptedFrom := "buyer", credit := 1), "", "")

  const REPEAT: Bundle := Bundle("seller", "buyer", "", [Some(REPEATED)])

  lemma RepeatIsSkipped()
    ensures ImportMessage(PLATFORM, ORACLE, 0, "seller", "buyer", Progress(COMPLETED, 0, 0, [], []), Some(REPEATED)).Ok?
  {
    hide PostColonies;
    StepFacts(Completed);
    assert PlanEnvelope(PLATFORM, ORACLE, 0, COMPLETED, "seller", "buyer", REPEATED) == Ok(None);
  }

  lemma RepeatIsImported()
    ensures ImportBundle(PLATFORM, ORACLE, COMPLETED, "token", "buyer", "b", REPEAT).Ok?
  {
    hide PostColonies, ImportMessage;
    assert CheckImport(PLATFORM, ORACLE, COMPLETED, "token", "buyer", REPEAT) == Ok("root");
    assert ImportUpTo(PLATFORM, ORACLE, COMPLETED, "seller", "buyer", REPEAT.messages, 0) == Ok(Progress(COMPLETED, 0, 0, [], []));
    RepeatIsSkipped();
  }

  lemma RepeatAsks()
    ensures !BundleFindable(COMPLETED, "buyer", REPEAT)
  {
    assert About(REPEAT.messages[0], "") && !Skipped({}, REPEAT.messages, 0);
  }

  /** A repeated settlement of that trade is skipped in memory, and in the database it fails the whole bundle. */
  lemma RepeatIsRefused(dbNow: int, sc: Scope)
    requires IsBundleScope(sc, "token", "buyer", REPEAT)
    ensures var part := Load(COMPLETED, Discover(PLATFORM, COMPLETED, sc, dbNow));
            && ImportBundle(PLATFORM, ORACLE, COMPLETED, "token", "buyer", "b", REPEAT).Ok?
            && Committed(COMPLETED, part, ImportBundle(PLATFORM, ORACLE, part, "token", "buyer", "b", REPEAT)).Err?
  {
    hide IsBundleScope, Discover, Load, Committed, ImportBundle, BundleFindable;
    RepeatIsImported();
    RepeatAsks();
    UnfindableIsRefused(PLATFORM, ORACLE, COMPLETED, dbNow, sc, "token", "buyer", "b", REPEAT);
  }
}
