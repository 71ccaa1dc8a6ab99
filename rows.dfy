/** The rows of the four tables the editors and the public page read and
    write, in the shapes the components declare for them. */
module Rows {
  import opened Common

  /** A `services` row. */
  datatype Service = Service(
    id: string,
    name: string,
    photoUrl: Option<string>,
    shortDescription: Option<string>,
    duration: Option<string>,
    benefits: Option<seq<string>>)

  /** A `gallery` row. */
  datatype GalleryItem = GalleryItem(id: string, photoUrl: string, caption: Option<string>)

  /** A `content` row; only the ids "home" and "about" exist. */
  datatype ContentItem = ContentItem(
    id: string,
    title: Option<string>,
    body: Option<string>,
    philosophy: Option<string>,
    whatSetsApart: Option<seq<string>>)

  /** A `social_media` row. */
  datatype SocialLink = SocialLink(
    id: string,
    platform: string,
    url: string,
    iconName: string,
    isActive: bool,
    displayOrder: int)
}
