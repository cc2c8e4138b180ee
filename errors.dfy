/** Error values for the exceptions the modelled Python code raises, and the
    Option/Result wrappers used to return them instead of raising. */
module Errors {

  datatype Option<+T> = None | Some(value: T)

  datatype Result<+T> = Ok(value: T) | Err(error: Error)

  /** One constructor per distinct way the modelled code can fail. */
  datatype Error =
    // random_bbox: `assert is_tuple_of(arg, int)` fails for the named parameter
    | NotTupleOfInt(param: string)
    // random_bbox: unpacking the named parameter into two values fails
    | WrongArity(param: string)
    // random_bbox: the three explicit validations
    | MaskLargerThanImage
    | DeltaNotSmallerThanMask
    | MarginUnsatisfiable
    // np.random.randint(low, high) with low >= high
    | EmptyDrawRange
    // calling random_bbox with keyword arguments it does not accept
    | BadKeywordArguments
    // `d[key]` or `d.pop(key)` on a dict that lacks `key`
    | MissingKey(key: string)
    // `results["img"]` has no `.height` / `.width`
    | NotAnImage
    // LoadMask with a mask mode other than bbox, irregular or ff
    | ModeNotImplemented(mode: string)
    // the value under `key` is used as a dict but is not one
    | NotADict(key: string)
    // `a + b` on values that are not both lists
    | UnsupportedConcat
    // torch.stack on something that is not a list, on an empty list, or on a
    // list holding a non-tensor
    | StackNotList
    | StackEmpty
    | StackNonTensor
    // a failure inside a mask generator that is not part of this model
    | GeneratorFailed(reason: string)

  /** The Python exception class each error is raised as. */
  function ExceptionClass(e: Error): (name: string)
    ensures e.NotTupleOfInt? <==> name == "AssertionError"
    ensures name == "ValueError" <==>
              e.WrongArity? || e.MaskLargerThanImage? || e.DeltaNotSmallerThanMask? ||
              e.MarginUnsatisfiable? || e.EmptyDrawRange?
    ensures e.ModeNotImplemented? <==> name == "NotImplementedError"
    ensures e.MissingKey? <==> name == "KeyError"
  {
    match e
    case NotTupleOfInt(_) => "AssertionError"
    case WrongArity(_) => "ValueError"
    case MaskLargerThanImage => "ValueError"
    case DeltaNotSmallerThanMask => "ValueError"
    case MarginUnsatisfiable => "ValueError"
    case EmptyDrawRange => "ValueError"
    case BadKeywordArguments => "TypeError"
    case MissingKey(_) => "KeyError"
    case NotAnImage => "AttributeError"
    case ModeNotImplemented(_) => "NotImplementedError"
    case NotADict(_) => "TypeError"
    case UnsupportedConcat => "TypeError"
    case StackNotList => "TypeError"
    case StackEmpty => "RuntimeError"
    case StackNonTensor => "TypeError"
    case GeneratorFailed(_) => "Exception"
  }
}
