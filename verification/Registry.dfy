/** The in-memory control-plane store: projects, their databases and credentials, and the audit log. */
module Registry {
  import opened Wrappers
  import opened Sequences
  import Credentials

  datatype AuditEntry = AuditEntry(
    id: nat,
    event: string,
    projectId: Option<string>,
    organizationId: Option<string>,
    userId: Option<string>,
    at: int
  )

  datatype Project = Project(organizationId: string, name: string)

  datatype DatabaseStatus = Provisioning | Ready | Running | Stopped

  datatype Database = Database(organizationId: string, databaseId: string, status: DatabaseStatus, updatedAt: int)

  datatype Credential = Credential(dbUser: string, password: string)

  /** Kept by a prune: recent enough, or of another organization than the one pruned. */
  function KeptBy(cutoff: int, organizationId: Option<string>): AuditEntry -> bool {
    (a: AuditEntry) => a.at >= cutoff || (organizationId.Some? && a.organizationId != organizationId)
  }

  class MemoryRegistry {
    const suite: Credentials.Suite
    const credentialKey: Option<Credentials.Key>
    var projects: map<string, Project>
    var databases: map<string, Database>
    var credentials: map<string, Credential>
    var audit: seq<AuditEntry>
    var auditCounter: nat

    constructor (suite: Credentials.Suite, key: Option<Credentials.Key>)
      ensures this.suite == suite && credentialKey == key
      ensures projects == map[] && databases == map[] && credentials == map[] && audit == [] && auditCounter == 0
    {
      this.suite := suite;
      credentialKey := key;
      projects, databases, credentials, audit, auditCounter := map[], map[], map[], [], 0;
    }

    method DeleteProject(projectId: string)
      modifies this
      ensures projects == old(projects) - {projectId}
      ensures databases == old(databases) - {projectId}
      ensures credentials == old(credentials) - {projectId}
      ensures audit == old(audit) && auditCounter == old(auditCounter)
    {
      projects := projects - {projectId};
      databases := databases - {projectId};
      credentials := credentials - {projectId};
    }

    method GetDatabaseByProject(projectId: string) returns (db: Option<Database>)
      ensures db == if projectId in databases then Some(databases[projectId]) else None
    {
      db := if projectId in databases then Some(databases[projectId]) else None;
    }

    method UpdateDatabaseStatus(projectId: string, status: DatabaseStatus, now: int)
      modifies this`databases
      ensures databases == if projectId in old(databases)
                           then old(databases)[projectId := old(databases)[projectId].(status := status, updatedAt := now)]
                           else old(databases)
    {
      if projectId in databases {
        databases := databases[projectId := databases[projectId].(status := status, updatedAt := now)];
      }
    }

    method RecordAudit(event: string, projectId: Option<string>, organizationId: Option<string>, userId: Option<string>, now: int)
      modifies this`audit, this`auditCounter
      ensures auditCounter == old(auditCounter) + 1
      ensures audit == old(audit) + [AuditEntry(auditCounter, event, projectId, organizationId, userId, now)]
    {
      auditCounter := auditCounter + 1;
      audit := audit + [AuditEntry(auditCounter, event, projectId, organizationId, userId, now)];
    }

    method PruneAuditLogs(cutoff: int, organizationId: Option<string>) returns (pruned: nat)
      modifies this`audit
      ensures audit == Filter(KeptBy(cutoff, organizationId), old(audit))
      ensures pruned + |audit| == |old(audit)|
    {
      var before := |audit|;
      ghost var kept := FilterEmbeds(KeptBy(cutoff, organizationId), audit);
      audit := Filter(KeptBy(cutoff, organizationId), audit);
      pruned := before - |audit|;
    }

    /** `iv` is the random initialisation vector of this encryption. */
    method SaveCredential(projectId: string, dbUser: string, password: string, iv: seq<Credentials.Base64Url.Byte>)
      modifies this`credentials
      ensures credentials == old(credentials)[projectId :=
                Credential(dbUser, Credentials.EncryptCredential(suite, iv, password, credentialKey))]
      // What a later read of this record gives back.
      ensures suite.Correct() && |iv| == 12 && credentialKey.Some? && password != "" ==>
                Readable(projectId) == Some(Ok(Credential(dbUser, password)))
      ensures credentialKey.None? && !(Credentials.PREFIX <= password) ==>
                Readable(projectId) == Some(Ok(Credential(dbUser, password)))
    {
      credentials := credentials[projectId :=
        Credential(dbUser, Credentials.EncryptCredential(suite, iv, password, credentialKey))];
      if suite.Correct() && |iv| == 12 && credentialKey.Some? {
        Credentials.DecryptInvertsEncrypt(suite, iv, password, credentialKey.value);
      }
    }

    /** The stored credential of a project, decrypted. */
    function Readable(projectId: string): Option<Result<Credential, Credentials.Failure>>
      reads this
    {
      if projectId !in credentials then None
      else
        match Credentials.DecryptCredential(suite, credentials[projectId].password, credentialKey)
        case Ok(password) => Some(Ok(Credential(credentials[projectId].dbUser, password)))
        case Err(e) => Some(Err(e))
    }

    /** None if there is no record; otherwise the record with its password decrypted, or why it cannot be. */
    method GetCredential(projectId: string) returns (c: Option<Result<Credential, Credentials.Failure>>)
      ensures c == Readable(projectId)
      ensures c.Some? <==> projectId in credentials
    {
      if projectId !in credentials {
        return None;
      }
      var rec := credentials[projectId];
      var password := Credentials.DecryptCredential(suite, rec.password, credentialKey);
      c := if password.Ok? then Some(Ok(Credential(rec.dbUser, password.value))) else Some(Err(password.error));
    }
  }
}
