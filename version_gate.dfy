/** The check `Boombera.new` makes before anything else: the client's version
    (`Boombera.version`) must equal the one the database records
    (`Boombera.database_version`). */
module VersionGate {
  import opened Common

  const MISSING_VERSION_MESSAGE := "Database does not specify a Boombera version"
  const EXPECTED_VERSION_PREFIX := "Database expects Boombera "

  /** Passes when the database records exactly the client's version; raises
      `VersionMismatch` otherwise, naming the database's version when it
      records one. */
  function CheckVersion(clientVersion: string, databaseVersion: Option<string>): (r: Outcome)
    ensures r.Pass? <==> databaseVersion == Some(clientVersion)
    ensures r.Fail? ==> r.error.VersionMismatch?
  {
    match databaseVersion
    case None => Fail(VersionMismatch(MISSING_VERSION_MESSAGE))
    case Some(expected) =>
      if expected == clientVersion then Pass
      else Fail(VersionMismatch(EXPECTED_VERSION_PREFIX + expected))
  }

  /** The two failures read differently: the "does not specify" message is
      raised exactly when no version is recorded, and otherwise the message
      is the prefix followed by the database's version. */
  lemma {:induction false} MismatchMessages(clientVersion: string, databaseVersion: Option<string>)
    requires CheckVersion(clientVersion, databaseVersion).Fail?
    ensures databaseVersion.None? <==>
              CheckVersion(clientVersion, databaseVersion).error.message == MISSING_VERSION_MESSAGE
    ensures databaseVersion.Some? ==>
              CheckVersion(clientVersion, databaseVersion).error.message == EXPECTED_VERSION_PREFIX + databaseVersion.value
  {
    if databaseVersion.Some? {
      var message := EXPECTED_VERSION_PREFIX + databaseVersion.value;
      assert message[9] == 'e' && MISSING_VERSION_MESSAGE[9] == 'd';
    }
  }

  /** The mismatch message names the database's version and not the client's:
      two mismatches with the same message come from the same database
      version, whatever the clients' versions are. */
  lemma {:induction false} MismatchNamesDatabaseVersion(client1: string, client2: string, expected1: string, expected2: string)
    requires CheckVersion(client1, Some(expected1)).Fail?
    requires CheckVersion(client1, Some(expected1)) == CheckVersion(client2, Some(expected2))
    ensures expected1 == expected2
  {
    var n := |EXPECTED_VERSION_PREFIX|;
    assert expected1 == (EXPECTED_VERSION_PREFIX + expected1)[n..];
    assert expected2 == (EXPECTED_VERSION_PREFIX + expected2)[n..];
  }
}
