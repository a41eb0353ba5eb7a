/** The exceptions that the cube builder raises, one constructor per kind of
    raise site. None of them is caught inside the builder: each one aborts the
    operation that raised it and propagates to the caller. */
module Errors {

  datatype Error =
      /** A granule filename has fewer `_`-separated tokens than the
          tokenizer indexes (Python IndexError). */
    | TooFewTokens(filename: string)
      /** A date string does not match the expected format (ValueError from strptime). */
    | BadDate(text: string)
      /** `get_data_var_attr`: a date attribute cannot be converted. */
    | DateConversion(url: string, text: string)
      /** `get_data_var_attr`: a date conversion was asked of a value that is
          not a string (AttributeError on `.split`). */
    | NotAString(varName: string, attrName: string)
      /** `get_data_var_attr`: a required attribute is absent. */
    | MissingAttribute(url: string, varName: string, attrName: string)
      /** A variable or attribute that the code reads unconditionally is absent
          (AttributeError / KeyError). */
    | MissingVariable(name: string)
      /** An attribute has a value of the wrong kind (TypeError / ValueError from int()). */
    | BadAttributeValue(varName: string, attrName: string)
      /** `preprocess_dataset`: the granule has no `mapping` variable. */
    | UnsupportedProjection(url: string)
      /** `preprocess_dataset`: fewer than two x coordinates survive the crop
          (IndexError reading the second x value). */
    | TooFewColumns(url: string)
      /** `preprocess_dataset`: the granule's x spacing differs from the cube's cell size. */
    | CellSizeMismatch(url: string, size: int)
      /** `combine_layers`: the first granule of the first batch has none of
          the three projection variables. */
    | MissingProjectionVariable(url: string)
      /** A global attribute of a granule that the code indexes directly is
          absent (KeyError on `ds.attrs[...]`). */
    | MissingGlobalAttribute(attrName: string)
      /** `combine_layers`: the batch has more than one grid mapping value. */
    | MultipleGridMappings
      /** `combine_layers`: the batch has more than one autoRIFT parameter file. */
    | MultipleParameterFiles
      /** `combine_layers`: the batch has more than one time standard for one image. */
    | MultipleTimeStandards(attrName: string)
      /** `process_v_attributes`: no description is known for a derived error variable. */
    | UnknownDescription(name: string)
      /** The storage collaborator cannot open a granule location. */
    | CannotOpen(path: string)
}
