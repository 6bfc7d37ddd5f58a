/**
 * The records the site works with, in the application's own (camelCase)
 * field naming. Optional TypeScript fields are `Option`s; ids are strings.
 */
module Entities {
  import opened Wrappers

  datatype FooterLink = FooterLink(id: string, linkLabel: string, url: string)

  datatype SchoolConfig = SchoolConfig(
    name: string, slogan: string, logoUrl: string, faviconUrl: Option<string>,
    bannerUrl: string, principalName: string, address: string,
    phone: string, email: string, hotline: string, mapUrl: string,
    facebook: string, youtube: string, zalo: string, website: string,
    showWelcomeBanner: bool, homeNewsCount: int,
    homeShowProgram: bool, primaryColor: string,
    titleColor: string, titleShadowColor: string,
    metaTitle: string, metaDescription: string,
    footerLinks: Option<seq<FooterLink>>)

  /** A news post. `content`, `author` and the two flags are absent on posts read from the listing. */
  datatype Post = Post(
    id: string, title: string, slug: string, summary: string, content: Option<string>,
    thumbnail: string, author: Option<string>, date: string, category: string, status: string,
    isFeatured: Option<bool>, showOnHome: Option<bool>,
    tags: seq<string>, attachments: seq<string>, blockIds: seq<string>)

  datatype StaffMember = StaffMember(
    id: string, fullName: string, position: string, partyDate: Option<string>,
    email: string, avatarUrl: string, order: int)

  datatype SchoolDocument = SchoolDocument(
    id: string, number: string, title: string, date: string, categoryId: string, downloadUrl: string)

  datatype GalleryAlbum = GalleryAlbum(
    id: string, title: string, description: string, thumbnail: string, createdDate: string)

  datatype DisplayBlock = DisplayBlock(
    id: string, name: string, position: string, blockType: string, order: int, itemCount: int,
    isVisible: bool, htmlContent: Option<string>, targetPage: Option<string>,
    customColor: Option<string>, customTextColor: Option<string>)

  datatype MenuItem = MenuItem(id: string, labelText: string, path: string, order: int)

  datatype PostCategory = PostCategory(id: string, name: string, slug: string, color: string, order: int)

  datatype DocumentCategory = DocumentCategory(
    id: string, name: string, slug: string, description: string, order: int)

  datatype Video = Video(id: string, title: string, youtubeUrl: string, order: int)

  datatype IntroductionArticle = IntroductionArticle(
    id: string, title: string, slug: string, content: string, imageUrl: string, order: int, isVisible: bool)

  datatype GalleryImage = GalleryImage(id: string, url: string, caption: string, albumId: string)

  datatype User = User(id: string, username: string, fullName: string, role: string, email: string)
}
