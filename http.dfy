/**
 * What an Express handler can send back: a status with a JSON body, and the cookie it sets
 * or clears. Also the stored-record shape `{ _id, ...fields }` shared by server and client.
 */
module Http {

  /** A MongoDB ObjectId. */
  type Id = nat

  /** A stored record as the server returns it: its `_id` and its fields. */
  datatype Doc<T> = Doc(id: Id, body: T)

  /**
   * A JSON body: the data itself, `{ message }`, or `{ message, error }` (the shape the
   * account handlers use for unexpected errors).
   */
  datatype Payload<T> = Data(value: T) | Message(text: string) | ServerFailure(text: string, error: string)

  datatype Reply<T> = Reply(status: nat, payload: Payload<T>)

  datatype Cookie =
    | NoCookie
    | SetCookie(name: string, value: string, httpOnly: bool, sameSite: string, maxAge: nat)
    | ClearCookie(name: string, httpOnly: bool, sameSite: string)

  /** The TypeError a handler raises when it reads `req.user._id` and `req.user` is null. */
  const NullUserMessage: string := "Cannot read properties of null (reading '_id')"
}

/** The array operations the client reducers apply to lists of stored records. */
module Docs {
  import opened Http
  import opened Seqs

  /** `items.findIndex((item) => item._id === id)`: the first position holding `id`, or -1. */
  function FindIndexById<T>(s: seq<Doc<T>>, id: Id): (r: int)
    ensures -1 <= r < |s|
    ensures r == -1 <==> forall i :: 0 <= i < |s| ==> s[i].id != id
    ensures r >= 0 ==> s[r].id == id && forall j :: 0 <= j < r ==> s[j].id != id
  {
    if s == [] then -1
    else if s[0].id == id then 0
    else
      var k := FindIndexById(s[1..], id);
      if k == -1 then -1 else k + 1
  }

  /**
   * `const idx = items.findIndex(...); if (idx !== -1) items[idx] = d`: the first record with
   * `d`'s id becomes `d`, every other position keeps its record.
   */
  function ReplaceById<T>(s: seq<Doc<T>>, d: Doc<T>): (r: seq<Doc<T>>)
    ensures |r| == |s|
    ensures forall i :: 0 <= i < |s| ==> r[i].id == s[i].id
    ensures (forall i :: 0 <= i < |s| ==> s[i].id != d.id) ==> r == s
    ensures forall i :: 0 <= i < |s| && s[i].id == d.id && (forall j :: 0 <= j < i ==> s[j].id != d.id) ==>
      r == s[i := d]
  {
    var k := FindIndexById(s, d.id);
    if k == -1 then s else s[k := d]
  }

  /** Replacing twice with the same record is replacing once. */
  lemma ReplaceByIdIdempotent<T>(s: seq<Doc<T>>, d: Doc<T>)
    ensures ReplaceById(ReplaceById(s, d), d) == ReplaceById(s, d)
  {
    var k := FindIndexById(s, d.id);
    if k != -1 {
      assert FindIndexById(ReplaceById(s, d), d.id) == k;
    }
  }

  /** Removing an id after replacing its record is the same as removing it straight away. */
  lemma {:induction false} WithoutIdAfterReplace<T>(s: seq<Doc<T>>, d: Doc<T>)
    ensures WithoutId(ReplaceById(s, d), d.id) == WithoutId(s, d.id)
  {
    if s != [] {
      ReplaceByIdCons(s, d);
      if s[0].id == d.id {
        assert ReplaceById(s, d)[1..] == s[1..];
      } else {
        WithoutIdAfterReplace(s[1..], d);
        assert ReplaceById(s, d)[1..] == ReplaceById(s[1..], d);
      }
    }
  }

  /** Replacement looks at the head first, then carries on in the tail. */
  lemma ReplaceByIdCons<T>(s: seq<Doc<T>>, d: Doc<T>)
    requires s != []
    ensures s[0].id == d.id ==> ReplaceById(s, d) == [d] + s[1..]
    ensures s[0].id != d.id ==> ReplaceById(s, d) == [s[0]] + ReplaceById(s[1..], d)
  {
    var k := FindIndexById(s[1..], d.id);
    if s[0].id != d.id && k != -1 {
      assert s[k + 1 := d] == [s[0]] + s[1..][k := d];
    }
  }

  /** `items.filter((item) => item._id !== id)`. */
  function WithoutId<T>(s: seq<Doc<T>>, id: Id): (r: seq<Doc<T>>)
    ensures |r| <= |s|
    ensures forall i :: 0 <= i < |r| ==> r[i].id != id && r[i] in s
    ensures forall i :: 0 <= i < |s| && s[i].id != id ==> s[i] in r
  {
    Filter(s, (d: Doc<T>) => d.id != id)
  }

  /** Removal keeps the survivors in their order: it distributes over concatenation. */
  lemma WithoutIdAppend<T>(a: seq<Doc<T>>, b: seq<Doc<T>>, id: Id)
    ensures WithoutId(a + b, id) == WithoutId(a, id) + WithoutId(b, id)
  {
    FilterAppend(a, b, (d: Doc<T>) => d.id != id);
  }

  /** Removing an id that is absent changes nothing. */
  lemma WithoutAbsentId<T>(s: seq<Doc<T>>, id: Id)
    requires forall i :: 0 <= i < |s| ==> s[i].id != id
    ensures WithoutId(s, id) == s
  {
    FilterKeepsAll(s, (d: Doc<T>) => d.id != id);
  }
}

/** Mongoose validation errors: one entry per failing path, and the message the error carries. */
module Validation {
  import opened Wrappers
  import opened Strings

  datatype FieldError =
    | Required(path: string, message: string)
    | NotInEnum(path: string, value: string)
    | TooShort(path: string, value: string, min: nat)

  function Describe(e: FieldError): string {
    match e
    case Required(_, m) => m
    case NotInEnum(p, v) => "`" + v + "` is not a valid enum value for path `" + p + "`."
    case TooShort(p, v, n) =>
      "Path `" + p + "` (`" + v + "`) is shorter than the minimum allowed length (" + NatToString(n) + ")."
  }

  /** The default message of a `required: true` path. */
  function RequiredMessage(path: string): string {
    "Path `" + path + "` is required."
  }

  /** `error.message` of a ValidationError: "<Model> validation failed: <path>: <message>, ...". */
  function ValidationMessage(model: string, errors: seq<FieldError>): string {
    model + " validation failed: "
    + Join(seq(|errors|, i requires 0 <= i < |errors| => errors[i].path + ": " + Describe(errors[i])), ", ")
  }

  /** A required string path: absent and empty values both fail. */
  function RequireString(path: string, message: string, v: Option<string>): (r: seq<FieldError>)
    ensures r == [] <==> v.Some? && v.value != ""
  {
    if v.None? || v.value == "" then [Required(path, message)] else []
  }

  /** An enum path: an absent value takes the default, a present one must be listed. */
  function CheckEnum(path: string, allowed: seq<string>, v: Option<string>): (r: seq<FieldError>)
    ensures r == [] <==> v.None? || v.value in allowed
  {
    if v.Some? && v.value !in allowed then [NotInEnum(path, v.value)] else []
  }
}
