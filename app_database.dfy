/** The Room type converter that stores an article's `Source` as one text column. */
module Converter {
  import opened NetworkModel

  /** Writes the source as its display name. */
  function ConvertFromSource(source: Source): (column: string)
    ensures column == source.name
  {
    source.name
  }

  /** Reads a source back with the stored text as both its identifier and its name. */
  function ConvertToSource(sourceName: string): (source: Source)
    ensures source.id == sourceName && source.name == sourceName
  {
    Source(sourceName, sourceName)
  }

  /** Writing back what was read gives the stored text. */
  lemma ColumnRoundTrip(sourceName: string)
    ensures ConvertFromSource(ConvertToSource(sourceName)) == sourceName
  {
  }

  /** Reading back what was written keeps the name only: the identifier becomes the name. */
  lemma SourceRoundTrip(source: Source)
    ensures ConvertToSource(ConvertFromSource(source)) == Source(source.name, source.name)
    ensures ConvertToSource(ConvertFromSource(source)) == source <==> source.id == source.name
  {
  }

  lemma ConvertToSourceInjective(x: string, y: string)
    ensures ConvertToSource(x) == ConvertToSource(y) ==> x == y
  {
  }

  /** Two sources that differ only in their identifier are stored alike. */
  lemma ConvertFromSourceNotInjective(name: string, id1: string, id2: string)
    requires id1 != id2
    ensures Source(id1, name) != Source(id2, name)
    ensures ConvertFromSource(Source(id1, name)) == ConvertFromSource(Source(id2, name))
  {
  }
}
