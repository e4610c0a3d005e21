/**
 * The Mongo collections as in-memory maps from ObjectId strings to records, and the
 * lookup rules the controllers get from Mongoose (`findById` and casting of ids).
 */
module Mongo {
  import opened Js

  predicate IsHexDigit(c: char) {
    '0' <= c <= '9' || 'a' <= c <= 'f' || 'A' <= c <= 'F'
  }

  /** `mongoose.Types.ObjectId.isValid` on a string: exactly 24 hexadecimal digits. */
  predicate IsObjectId(s: string) {
    |s| == 24 && forall i :: 0 <= i < 24 ==> IsHexDigit(s[i])
  }

  /** The result of `Model.findById`: a document, `null`, or a thrown cast error. */
  datatype Lookup<T> = Found(doc: T) | Missing | CastFailure

  /** What Mongoose throws when a query id is not an ObjectId; it carries no HTTP code. */
  const CastError: Thrown := LibraryError("CastError", None, None, "Cast to ObjectId failed")

  /** What `Model.create` and `doc.save()` throw when schema validation fails. */
  const ValidationError: Thrown := LibraryError("ValidationError", None, None, "Validation failed")

  /**
   * `Model.findById(id)`: an absent id finds nothing (Mongoose queries `_id: null` for
   * it), a string that is not an ObjectId is a cast error, any other id finds the stored
   * document if there is one. The model reads an undefined id the same way wherever a
   * handler looks one up.
   */
  function FindById<T>(docs: map<string, T>, id: Option<string>): Lookup<T> {
    if id.None? then Missing
    else if !IsObjectId(id.value) then CastFailure
    else if id.value in docs then Found(docs[id.value])
    else Missing
  }

  /** One Mongo collection; handlers read and reassign `docs`. */
  class Collection<T> {
    var docs: map<string, T>

    constructor (initial: map<string, T>)
      ensures docs == initial
    {
      docs := initial;
    }

    /**
     * `Model.create(doc)` once validation has passed; `id` is the freshly generated
     * ObjectId, which the driver guarantees is unused.
     */
    method Insert(id: string, doc: T)
      requires IsObjectId(id) && id !in docs
      modifies this
      ensures docs == old(docs)[id := doc]
    {
      docs := docs[id := doc];
    }
  }
}
