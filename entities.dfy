/**
 * The store rows a post is hydrated from, as plain values: locations, photos, people, sections
 * and the group (tenant) a post belongs to. Their constructors only copy columns; the one renamed
 * column is a photo's alternative text, which is read from the row's `title`.
 */
module Entities {
  import opened Wrappers

  datatype Location = Location(
    id: int, name: string, addressLine: string, extendedAddress: Option<string>, city: string,
    regionCode: string, postalCode: string, latitude: string, longitude: string, website: string)

  datatype PhotoRow = PhotoRow(id: int, url: string, width: int, height: int, title: string)

  datatype Photo = Photo(id: int, url: string, width: int, height: int, altText: string)

  /** A photo model built from its row: `altText` is the row's `title`. */
  function MakePhoto(row: PhotoRow): (p: Photo)
    ensures p.altText == row.title
    ensures p.id == row.id && p.url == row.url && p.width == row.width && p.height == row.height
  {
    Photo(row.id, row.url, row.width, row.height, row.title)
  }

  datatype Person = Person(id: int, name: string, biography: Option<string>, website: string)

  datatype Section = Section(id: int, slug: string, name: string)

  /** The tenant fields the hydration reads: ticket code prefix, locale and time zone. */
  datatype Group = Group(code: string, locale: string, timezone: string)
}
