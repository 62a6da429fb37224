/**
  The query payloads the service sends. Optional fields typed `T | null` in
  the client's type declarations distinguish a missing key from an explicit
  `null`, since both can be sent in a JSON body.
 */
module Types {

  /** An optional, nullable field: absent, `null`, or a value. */
  datatype Nullable<+T> = Undefined | Null | Defined(value: T)

  datatype BeadQuery = BeadQuery(alleles: seq<string>)

  datatype BeadFilterQuery = BeadFilterQuery(
    allele: Nullable<string>,
    antigen: Nullable<string>,
    serotype: Nullable<string>,
    serotypeFromAllele: Nullable<string>,
    comment: Nullable<string>,
    manufacturer: Nullable<string>,
    version: Nullable<int>)

  datatype SerologicalQuery = SerologicalQuery(alleles: seq<string>)

  datatype SerotypeQuery = SerotypeQuery(alleles: seq<string>, version: Nullable<int>)

  datatype SerotypeFilterQuery = SerotypeFilterQuery(
    allele: Nullable<string>,
    antigen: Nullable<string>,
    serotype: Nullable<string>,
    serotypeFromAllele: Nullable<string>,
    comment: Nullable<string>,
    manufacturer: Nullable<string>,
    nField: Nullable<int>,
    version: Nullable<int>)
}
