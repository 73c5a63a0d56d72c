/** Small datatypes shared by every module. */
module Common {

  datatype Option<+T> = None | Some(value: T)

  /** The pair a commit is deduplicated on. The program hashes `repo NUL sha`
      with SHA-256; the hash is taken to be collision-free. */
  datatype Key = Key(repo: string, sha: string)

  /** How an atomic step of a coroutine ends: it takes effect, it reports a bad
      result (a non-zero return code, a reply lost after the command ran), or it
      raises without taking effect. */
  datatype Outcome = Ok | Bad | Raise
}
