/** Shared vocabulary: optional values, results, the errors of the modelled code and the
    dynamically typed values ("interface{}") that flow through pipelines and engines. */
module Values {

  datatype Option<+T> = None | Some(value: T)

  datatype Result<+T> = Ok(value: T) | Err(error: Error)

  datatype Error =
      // persistence/queue.go
    | KeyNotFound | StoreFailed | DecodeFailed
      // model.go and onnx_runtime.go, registries
    | EmptyModelId | ColonInId | ColonInVersion | ModelNotFound | ModelAlreadyExists
    | FileUnreadable | BadSignature | BadModelFile
      // onnx_runtime.go, prediction
    | MissingInput(name: string) | NotSingleInput | UnsupportedInput
    | SizeMismatch(index: nat) | RunFailed | ContextDone
      // pipeline.go
    | MissingType | ExpectsFloats(step: string) | ExpectsInts | LabelsRequired | UnsupportedStep(step: string)

  /** Element types of tensors and numeric slices. */
  datatype DType =
    Float32 | Float64 | Int8 | UInt8 | Int16 | UInt16 | Int32 | UInt32 | Int64 | UInt64 | Bool

  /** A dynamically typed value.  Slice and Rows are []T and [][]T over a DType, with numbers
      as reals and true as 1; Ints is []int, Named is map[string]interface{}. */
  datatype Value =
    | Slice(dtype: DType, elems: seq<real>)
    | Rows(dtype: DType, rows: seq<seq<real>>)
    | Ints(ints: seq<int>)
    | Strings(strings: seq<string>)
    | Text(text: string)
    | Named(fields: map<string, Value>)
    | Other
}
