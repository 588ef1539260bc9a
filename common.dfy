/** Option, Result and the crate's error type (src/error.rs), shared by every parser. */
module Common {

  datatype Option<+T> = None | Some(value: T)

  /**
   * The crate's `Error`. The source declares `IoError` and `ParseFile`; the
   * USB scanner and the DNS lookup also use `IoErrorDetail`, an address-parse
   * conversion and `DnsError`, so they get variants of their own. An
   * `io::Error` payload is not modelled; a `ParseFile` reason is kept as a tag.
   */
  datatype Error =
    | IoError(file: string)
    | IoErrorDetail(path: string)
    | ParseFile(file: string, reason: string)
    | AddrParseError(addr: string)
    | DnsError(addr: string)

  /** `Result<T, Error>`, usable with `:-`. */
  datatype Result<+T> = Ok(value: T) | Err(error: Error) {

    predicate IsFailure() {
      Err?
    }

    function PropagateFailure<U>(): Result<U>
      requires Err?
    {
      Err(error)
    }

    function Extract(): T
      requires Ok?
    {
      value
    }
  }

  /** `xs` followed by the records of `r`, or the error of `r`: the list built so far, then the rest of the parse. */
  function PrependOk<T>(xs: seq<T>, r: Result<seq<T>>): Result<seq<T>> {
    if r.Ok? then Ok(xs + r.value) else r
  }

  /** Prepending twice is prepending the concatenation. */
  lemma PrependOkAssoc<T>(xs: seq<T>, ys: seq<T>, r: Result<seq<T>>)
    ensures PrependOk(xs, PrependOk(ys, r)) == PrependOk(xs + ys, r)
  {
    if r.Ok? {
      assert xs + (ys + r.value) == xs + ys + r.value;
    }
  }

  /** Prepending nothing changes nothing. */
  lemma PrependOkNil<T>(r: Result<seq<T>>)
    ensures PrependOk([], r) == r
  {
    if r.Ok? {
      assert [] + r.value == r.value;
    }
  }

  /** The empty sequence is a unit of concatenation. */
  lemma AppendNil<T>(s: seq<T>)
    ensures s + [] == s && [] + s == s
  {
  }
}
