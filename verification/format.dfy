/**
 * When Python's `str.format` raises. A template is the sequence of its
 * replacement fields, `{}` (automatic numbering) or `{name}`; a call supplies
 * some positional arguments and a set of keyword names. Fields are filled left
 * to right: a `{name}` with no such keyword raises KeyError, a `{}` beyond the
 * positional arguments raises IndexError, and unused arguments are ignored.
 */
module PyFormat {
  import opened Wrappers
  import opened PyValues

  datatype Field = Auto | Named(name: string)

  datatype FormatCall = FormatCall(positional: nat, keywords: set<string>)

  function AutoCount(fields: seq<Field>): nat
  {
    if fields == [] then 0 else (if fields[0].Auto? then 1 else 0) + AutoCount(fields[1..])
  }

  /** The exception raised while filling `fields` when `next` positional arguments are already used. */
  function FormatFailureFrom(fields: seq<Field>, call: FormatCall, next: nat): (r: Option<ErrKind>)
    ensures r == None || r == Some(KeyError) || r == Some(IndexError)
  {
    if fields == [] then None
    else match fields[0]
      case Auto =>
        if next < call.positional then FormatFailureFrom(fields[1..], call, next + 1) else Some(IndexError)
      case Named(n) =>
        if n in call.keywords then FormatFailureFrom(fields[1..], call, next) else Some(KeyError)
  }

  /** The exception `template.format(...)` raises, if any. */
  function FormatFailure(fields: seq<Field>, call: FormatCall): Option<ErrKind>
  {
    FormatFailureFrom(fields, call, 0)
  }

  /** Every named field has its keyword and the automatic fields fit the positional arguments. */
  predicate Fits(fields: seq<Field>, call: FormatCall, next: nat)
  {
    && (forall i :: 0 <= i < |fields| && fields[i].Named? ==> fields[i].name in call.keywords)
    && next + AutoCount(fields) <= call.positional
  }

  /** Formatting raises nothing exactly when the call fits the template. */
  lemma {:induction false} FormatSucceedsIff(fields: seq<Field>, call: FormatCall, next: nat)
    requires next <= call.positional
    ensures FormatFailureFrom(fields, call, next) == None <==> Fits(fields, call, next)
    decreases |fields|
  {
    if fields != [] {
      var step := if fields[0].Auto? then 1 else 0;
      assert AutoCount(fields) == step + AutoCount(fields[1..]);
      if next + step <= call.positional {
        FormatSucceedsIff(fields[1..], call, next + step);
      }
      if Fits(fields[1..], call, next + step) && (fields[0].Named? ==> fields[0].name in call.keywords) {
        forall i | 0 <= i < |fields| && fields[i].Named?
          ensures fields[i].name in call.keywords
        {
          if i > 0 {
            assert fields[i] == fields[1..][i - 1];
          }
        }
      }
      if Fits(fields, call, next) {
        forall i | 0 <= i < |fields[1..]| && fields[1..][i].Named?
          ensures fields[1..][i].name in call.keywords
        {
          assert fields[1..][i] == fields[i + 1];
        }
      }
    }
  }

  /** A template with only named fields raises KeyError as soon as one keyword is missing. */
  lemma {:induction false} MissingKeywordRaisesKeyError(fields: seq<Field>, call: FormatCall, next: nat, i: nat)
    requires forall j :: 0 <= j < |fields| ==> fields[j].Named?
    requires i < |fields| && fields[i].name !in call.keywords
    ensures FormatFailureFrom(fields, call, next) == Some(KeyError)
    decreases i
  {
    if fields[0].name in call.keywords {
      MissingKeywordRaisesKeyError(fields[1..], call, next, i - 1);
    }
  }

  /**
   * The exception that `raise raised(template.format(...))` propagates: the
   * message is built first, so a formatting error escapes in place of `raised`.
   */
  function Raising(fields: seq<Field>, call: FormatCall, raised: ErrKind): (r: ErrKind)
    ensures Fits(fields, call, 0) ==> r == raised
    ensures !Fits(fields, call, 0) ==> r == KeyError || r == IndexError
  {
    FormatSucceedsIff(fields, call, 0);
    match FormatFailure(fields, call)
    case Some(e) => e
    case None => raised
  }
}
