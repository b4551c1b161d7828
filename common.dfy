/** Small shared vocabulary: bytes, optional values, error results and the
    C-string view of a sequence (everything before its first NUL). */
module Common {

  newtype byte = b: int | 0 <= b < 256

  datatype Option<T> = None | Some(value: T)

  /** The outcome of an operation that the source ends with `luaL_error`:
      `Err` carries the message handed to `luaL_error`, which the engine
      raises prefixed with the calling script's position. */
  datatype Result<T> = Ok(value: T) | Err(message: string)

  function Min(a: nat, b: nat): nat { if a <= b then a else b }

  function Max(a: nat, b: nat): nat { if a <= b then b else a }

  /** What a C routine sees of `s` when it is handed over as a NUL-terminated
      string (`strlen`, `%s`, `strcmp`, `lua_setfield`): the longest prefix
      that holds no `nul`. */
  function UpToNul<T(==)>(s: seq<T>, nul: T): (r: seq<T>)
    ensures r <= s
    ensures nul !in r
    ensures |r| < |s| ==> s[|r|] == nul
  {
    if |s| == 0 || s[0] == nul then [] else [s[0]] + UpToNul(s[1..], nul)
  }

  /** A sequence without a NUL is its own C-string view. */
  lemma UpToNulOfNulFree<T>(s: seq<T>, nul: T)
    requires nul !in s
    ensures UpToNul(s, nul) == s
  {
  }
}
