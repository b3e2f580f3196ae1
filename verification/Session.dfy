/** The session file (nerd/conf/session.go): three sections, each written by a locked
    read-modify-write of the whole file. */
module Session {
  import opened Prelude

  datatype OAuth = OAuth(accessToken: string, refreshToken: string, expiration: int, scope: string, tokenType: string)

  datatype JWT = JWT(token: string, refreshToken: string)

  datatype Project = Project(name: string, awsRegion: string)

  datatype Snapshot = Snapshot(oauth: OAuth, jwt: JWT, project: Project)

  /** What is on disk: a snapshot, or nothing that can be read back (no file, or not JSON). */
  type File = Option<Snapshot>

  datatype Write = WriteJWT(jwt: JWT) | WriteOAuth(oauth: OAuth) | WriteProject(project: Project)

  /** What goes wrong in the system calls of one operation. */
  datatype Fault = NoFault | ReadFails | CreateFails | EncodeFails

  function Updated(ss: Snapshot, w: Write): Snapshot {
    match w
    case WriteJWT(jwt) => ss.(jwt := jwt)
    case WriteOAuth(oauth) => ss.(oauth := oauth)
    case WriteProject(project) => ss.(project := project)
  }

  predicate Readable(file: File, fault: Fault) {
    file.Some? && !fault.ReadFails?
  }

  predicate Succeeds(file: File, fault: Fault) {
    file.Some? && fault.NoFault?
  }

  // os.Create empties the file before anything is encoded into it
  function FileAfter(file: File, w: Write, fault: Fault): File {
    if !Readable(file, fault) || fault.CreateFails? then file
    else if fault.EncodeFails? then None
    else Some(Updated(file.value, w))
  }

  class Session {
    var file: File

    constructor (found: File)
      ensures file == found
    {
      file := found;
    }

    method ReadFile(fault: Fault) returns (ss: Option<Snapshot>)
      ensures ss == if fault.ReadFails? then None else file
    {
      if fault.ReadFails? {
        return None;
      }
      ss := file;
    }

    method WriteFile(ss: Snapshot, fault: Fault) returns (ok: bool)
      modifies this
      ensures ok <==> !fault.CreateFails? && !fault.EncodeFails?
      ensures file == if fault.CreateFails? then old(file) else if fault.EncodeFails? then None else Some(ss)
    {
      if fault.CreateFails? {
        return false;
      }
      file := None;
      if fault.EncodeFails? {
        return false;
      }
      file := Some(ss);
      ok := true;
    }

    method Read(fault: Fault) returns (ss: Option<Snapshot>)
      ensures ss == if Readable(file, fault) then file else None
    {
      ss := ReadFile(fault);
    }

    method StoreJWT(token: string, refreshToken: string, fault: Fault) returns (ok: bool)
      modifies this
      ensures ok <==> Succeeds(old(file), fault)
      ensures file == FileAfter(old(file), WriteJWT(JWT(token, refreshToken)), fault)
      ensures ok ==>
        var was := old(file).value;
        file == Some(Snapshot(was.oauth, JWT(token, refreshToken), was.project))
    {
      var ss := ReadFile(fault);
      if ss.None? {
        return false;
      }
      ok := WriteFile(ss.value.(jwt := JWT(token, refreshToken)), fault);
    }

    method StoreOAuth(oauth: OAuth, fault: Fault) returns (ok: bool)
      modifies this
      ensures ok <==> Succeeds(old(file), fault)
      ensures file == FileAfter(old(file), WriteOAuth(oauth), fault)
      ensures ok ==>
        var was := old(file).value;
        file == Some(Snapshot(oauth, was.jwt, was.project))
    {
      var ss := ReadFile(fault);
      if ss.None? {
        return false;
      }
      ok := WriteFile(ss.value.(oauth := oauth), fault);
    }

    method StoreProject(name: string, awsRegion: string, fault: Fault) returns (ok: bool)
      modifies this
      ensures ok <==> Succeeds(old(file), fault)
      ensures file == FileAfter(old(file), WriteProject(Project(name, awsRegion)), fault)
      ensures ok ==>
        var was := old(file).value;
        && file == Some(Snapshot(was.oauth, was.jwt, file.value.project))
        && file.value.project.name == name && file.value.project.awsRegion == awsRegion
    {
      var ss := ReadFile(fault);
      if ss.None? {
        return false;
      }
      ok := WriteFile(ss.value.(project := Project(name, awsRegion)), fault);
    }
  }

  /* ---------- histories of writes, by any number of goroutines ---------- */

  datatype Attempt = Attempt(write: Write, fault: Fault)

  function History(file: File, attempts: seq<Attempt>): File
    decreases |attempts|
  {
    if attempts == [] then file
    else
      var init, last := attempts[..|attempts| - 1], attempts[|attempts| - 1];
      FileAfter(History(file, init), last.write, last.fault)
  }

  datatype Section = OfJWT | OfOAuth | OfProject

  predicate Writes(w: Write, section: Section) {
    match section
    case OfJWT => w.WriteJWT?
    case OfOAuth => w.WriteOAuth?
    case OfProject => w.WriteProject?
  }

  /** Position after the last attempt without a fault that writes the section, 0 if none. */
  function LastWrite(attempts: seq<Attempt>, section: Section): (n: nat)
    ensures n <= |attempts|
    ensures n > 0 ==> attempts[n - 1].fault.NoFault? && Writes(attempts[n - 1].write, section)
    ensures forall i :: n <= i < |attempts| && attempts[i].fault.NoFault? ==>
      !Writes(attempts[i].write, section)
  {
    if attempts == [] then 0
    else
      var last := attempts[|attempts| - 1];
      if last.fault.NoFault? && Writes(last.write, section) then |attempts|
      else LastWrite(attempts[..|attempts| - 1], section)
  }

  /** The section of `ss` is what the last write of it gave it, or what it was to begin with. */
  ghost predicate HoldsLastWrite(start: Snapshot, attempts: seq<Attempt>, ss: Snapshot, section: Section) {
    var n := LastWrite(attempts, section);
    match section
    case OfJWT => ss.jwt == if n == 0 then start.jwt else attempts[n - 1].write.jwt
    case OfOAuth => ss.oauth == if n == 0 then start.oauth else attempts[n - 1].write.oauth
    case OfProject => ss.project == if n == 0 then start.project else attempts[n - 1].write.project
  }

  /** The file can no longer be read, for good, once an encoding has failed; not before. */
  lemma {:induction false} UnreadableOnceEncodingFails(start: Snapshot, attempts: seq<Attempt>)
    ensures History(Some(start), attempts).Some? <==>
      forall i :: 0 <= i < |attempts| ==> !attempts[i].fault.EncodeFails?
    decreases |attempts|
  {
    if attempts != [] {
      var init, last := attempts[..|attempts| - 1], attempts[|attempts| - 1];
      UnreadableOnceEncodingFails(start, init);
      assert attempts == init + [last];
    }
  }

  /** No write is lost or mixed with another: while the file can be read, each section is
      what the last write of that section gave it. */
  lemma {:induction false} SectionsHoldTheirLastWrite(start: Snapshot, attempts: seq<Attempt>, section: Section)
    requires History(Some(start), attempts).Some?
    ensures HoldsLastWrite(start, attempts, History(Some(start), attempts).value, section)
    decreases |attempts|
  {
    if attempts != [] {
      SectionsHoldTheirLastWrite(start, attempts[..|attempts| - 1], section);
    }
  }
}
