/**
 * The remote tables' rows and the pairs of mappings the data service
 * applies: record to row on save, row to record on read, with the read
 * side's defaults. A row holds one field per column the service writes or
 * reads, in the service's order, without the `id` column, which keys the
 * table. Each `...ToRow` states the round trip it completes.
 */
module FieldMapping {
  import opened Wrappers
  import opened Entities

  const DefaultFooterLinks: seq<FooterLink> := [
    FooterLink("1", "Bộ Giáo dục & Đào tạo", "https://moet.gov.vn"),
    FooterLink("2", "Sở GD tỉnh Điện Biên", "#"),
    FooterLink("3", "Phòng GD Điện Biên Đông", "#")
  ]

  /** `DEFAULT_CONFIG` of the data service: what `getConfig` yields when nothing else is available. */
  const DefaultConfig: SchoolConfig := SchoolConfig(
    "Trường PTDTBT TH và THCS Suối Lư", "Trách nhiệm - Yêu thương - Sáng tạo", "", None,
    "", "", "Huyện Điện Biên Đông, Tỉnh Điện Biên",
    "", "", "", "",
    "", "", "", "",
    true, 6,
    true, "#1e3a8a",
    "#fbbf24", "rgba(0,0,0,0.8)",
    "Trường PTDTBT TH và THCS Suối Lư", "Website chính thức của Trường PTDTBT TH và THCS Suối Lư",
    Some(DefaultFooterLinks))

  /** The colour a block gets on read when its stored colour is null or empty. */
  const DefaultBlockColor: string := "#1e3a8a"

  /** Users' e-mail addresses are derived from their user names on read. */
  const UserEmailDomain: string := "@school.edu.vn"

  // ---------------------------------------------------------------- config

  datatype ConfigRow = ConfigRow(
    name: string, slogan: string, logoUrl: string, faviconUrl: Option<string>,
    bannerUrl: string, principalName: string, address: string,
    phone: string, email: string, hotline: string, mapUrl: string,
    facebook: string, youtube: string, zalo: string, website: string,
    showWelcomeBanner: bool, homeNewsCount: int,
    homeShowProgram: bool, primaryColor: string,
    titleColor: string, titleShadowColor: string,
    metaTitle: string, metaDescription: string,
    footerLinks: Option<seq<FooterLink>>)

  function ConfigFromRow(d: ConfigRow): (c: SchoolConfig)
    ensures c.footerLinks.Some?
  {
    SchoolConfig(
      d.name, d.slogan, d.logoUrl, d.faviconUrl,
      d.bannerUrl, d.principalName, d.address,
      d.phone, d.email, d.hotline, d.mapUrl,
      d.facebook, d.youtube, d.zalo, d.website,
      d.showWelcomeBanner, d.homeNewsCount,
      d.homeShowProgram, d.primaryColor,
      d.titleColor, d.titleShadowColor,
      d.metaTitle, d.metaDescription,
      Some(d.footerLinks.GetOr(DefaultFooterLinks)))
  }

  /** A saved config reads back unchanged, except that missing footer links read as the defaults. */
  function ConfigToRow(c: SchoolConfig): (r: ConfigRow)
    ensures c.footerLinks.Some? ==> ConfigFromRow(r) == c
    ensures c.footerLinks.None? ==> ConfigFromRow(r) == c.(footerLinks := Some(DefaultFooterLinks))
  {
    ConfigRow(
      c.name, c.slogan, c.logoUrl, c.faviconUrl,
      c.bannerUrl, c.principalName, c.address,
      c.phone, c.email, c.hotline, c.mapUrl,
      c.facebook, c.youtube, c.zalo, c.website,
      c.showWelcomeBanner, c.homeNewsCount,
      c.homeShowProgram, c.primaryColor,
      c.titleColor, c.titleShadowColor,
      c.metaTitle, c.metaDescription,
      c.footerLinks)
  }

  // ---------------------------------------------------------------- posts

  datatype PostRow = PostRow(
    title: string, slug: string, summary: string, content: Option<string>, thumbnail: string,
    author: Option<string>, date: string, category: string, status: string,
    isFeatured: Option<bool>, showOnHome: Option<bool>,
    tags: seq<string>, attachments: seq<string>, blockIds: seq<string>)

  /**
   * The listing read of `getPosts`: the row's selected columns are spread into
   * the record under their own names and the three lists are emptied. Content
   * and author are not selected, and `is_featured` / `show_on_home` are not
   * renamed, so the record's `isFeatured` and `showOnHome` stay absent.
   */
  function PostFromListing(id: string, p: PostRow): (post: Post)
    ensures post.id == id
    ensures post.tags == [] && post.attachments == [] && post.blockIds == []
    ensures post.content.None? && post.author.None? && post.isFeatured.None? && post.showOnHome.None?
  {
    Post(id, p.title, p.slug, p.summary, None, p.thumbnail, None, p.date, p.category, p.status,
         None, None, [], [], [])
  }

  /** A saved post reads back from the listing with its listed fields, and without the rest. */
  function PostToRow(p: Post): (r: PostRow)
    ensures PostFromListing(p.id, r)
         == p.(content := None, author := None, isFeatured := None, showOnHome := None,
               tags := [], attachments := [], blockIds := [])
    ensures r.content == p.content && r.author == p.author
    ensures r.isFeatured == p.isFeatured && r.showOnHome == p.showOnHome
    ensures r.tags == p.tags && r.attachments == p.attachments && r.blockIds == p.blockIds
  {
    PostRow(p.title, p.slug, p.summary, p.content, p.thumbnail, p.author, p.date, p.category, p.status,
            p.isFeatured, p.showOnHome, p.tags, p.attachments, p.blockIds)
  }

  // ---------------------------------------------------------------- staff

  datatype StaffRow = StaffRow(
    fullName: string, position: string, partyDate: Option<string>,
    email: string, avatarUrl: string, orderIndex: int)

  function StaffFromRow(id: string, s: StaffRow): StaffMember
  {
    StaffMember(id, s.fullName, s.position, s.partyDate, s.email, s.avatarUrl, s.orderIndex)
  }

  /** An empty party date is sent as null; everything else round-trips. */
  function StaffToRow(s: StaffMember): (r: StaffRow)
    ensures s.partyDate == Some("") ==> r.partyDate.None?
    ensures StaffFromRow(s.id, r) == s.(partyDate := if s.partyDate == Some("") then None else s.partyDate)
  {
    StaffRow(s.fullName, s.position, if s.partyDate == Some("") then None else s.partyDate,
             s.email, s.avatarUrl, s.order)
  }

  // ---------------------------------------------------------------- documents

  datatype DocumentRow = DocumentRow(
    number: string, title: string, date: string, categoryId: string, downloadUrl: string)

  function DocumentFromRow(id: string, d: DocumentRow): SchoolDocument
  {
    SchoolDocument(id, d.number, d.title, d.date, d.categoryId, d.downloadUrl)
  }

  function DocumentToRow(d: SchoolDocument): (r: DocumentRow)
    ensures DocumentFromRow(d.id, r) == d
  {
    DocumentRow(d.number, d.title, d.date, d.categoryId, d.downloadUrl)
  }

  // ---------------------------------------------------------------- albums

  datatype AlbumRow = AlbumRow(title: string, description: string, thumbnail: string, createdDate: string)

  function AlbumFromRow(id: string, a: AlbumRow): GalleryAlbum
  {
    GalleryAlbum(id, a.title, a.description, a.thumbnail, a.createdDate)
  }

  function AlbumToRow(a: GalleryAlbum): (r: AlbumRow)
    ensures AlbumFromRow(a.id, r) == a
  {
    AlbumRow(a.title, a.description, a.thumbnail, a.createdDate)
  }

  // ---------------------------------------------------------------- display blocks

  datatype BlockRow = BlockRow(
    name: string, position: string, blockType: string, orderIndex: int, itemCount: int,
    isVisible: bool, htmlContent: Option<string>, targetPage: Option<string>,
    customColor: Option<string>, customTextColor: Option<string>)

  /** `x || '#1e3a8a'` on a nullable string column. */
  function ColorOrDefault(c: Option<string>): (r: string)
    ensures r != ""
    ensures c.Some? && c.value != "" ==> r == c.value
    ensures c.None? || c.value == "" ==> r == DefaultBlockColor
  {
    if c.Some? && c.value != "" then c.value else DefaultBlockColor
  }

  function BlockFromRow(id: string, b: BlockRow): (blk: DisplayBlock)
    ensures blk.id == id && blk.order == b.orderIndex
    ensures blk.customColor.Some? && blk.customColor.value != ""
    ensures blk.customTextColor.Some? && blk.customTextColor.value != ""
  {
    DisplayBlock(id, b.name, b.position, b.blockType, b.orderIndex, b.itemCount, b.isVisible,
                 b.htmlContent, b.targetPage,
                 Some(ColorOrDefault(b.customColor)), Some(ColorOrDefault(b.customTextColor)))
  }

  /** A saved block reads back unchanged, except that a missing or empty colour reads as '#1e3a8a'. */
  function BlockToRow(b: DisplayBlock): (r: BlockRow)
    ensures BlockFromRow(b.id, r)
         == b.(customColor := Some(ColorOrDefault(b.customColor)),
               customTextColor := Some(ColorOrDefault(b.customTextColor)))
    ensures (b.customColor.Some? && b.customColor.value != "" &&
             b.customTextColor.Some? && b.customTextColor.value != "") ==> BlockFromRow(b.id, r) == b
  {
    BlockRow(b.name, b.position, b.blockType, b.order, b.itemCount, b.isVisible,
             b.htmlContent, b.targetPage, b.customColor, b.customTextColor)
  }

  /** The column patch of `saveBlocksOrder`: only `order_index` changes. */
  function WithBlockOrder(r: BlockRow, order: int): (r': BlockRow)
    ensures r'.orderIndex == order && r'.(orderIndex := r.orderIndex) == r
  {
    r.(orderIndex := order)
  }

  // ---------------------------------------------------------------- menu

  datatype MenuRow = MenuRow(labelText: string, path: string, orderIndex: int)

  function MenuFromRow(id: string, m: MenuRow): MenuItem
  {
    MenuItem(id, m.labelText, m.path, m.orderIndex)
  }

  function MenuToRow(m: MenuItem): (r: MenuRow)
    ensures MenuFromRow(m.id, r) == m
  {
    MenuRow(m.labelText, m.path, m.order)
  }

  // ---------------------------------------------------------------- post categories

  datatype PostCategoryRow = PostCategoryRow(name: string, slug: string, color: string, orderIndex: int)

  function PostCategoryFromRow(id: string, c: PostCategoryRow): PostCategory
  {
    PostCategory(id, c.name, c.slug, c.color, c.orderIndex)
  }

  function PostCategoryToRow(c: PostCategory): (r: PostCategoryRow)
    ensures PostCategoryFromRow(c.id, r) == c
  {
    PostCategoryRow(c.name, c.slug, c.color, c.order)
  }

  // ---------------------------------------------------------------- document categories

  datatype DocCategoryRow = DocCategoryRow(name: string, slug: string, description: string, orderIndex: Option<int>)

  /** `order_index || 0`: a null (or zero) order reads as 0. */
  function DocCategoryFromRow(id: string, c: DocCategoryRow): (cat: DocumentCategory)
    ensures cat.id == id
    ensures cat.order == if c.orderIndex.Some? then c.orderIndex.value else 0
  {
    DocumentCategory(id, c.name, c.slug, c.description, c.orderIndex.GetOr(0))
  }

  function DocCategoryToRow(c: DocumentCategory): (r: DocCategoryRow)
    ensures r.orderIndex.Some?
    ensures DocCategoryFromRow(c.id, r) == c
  {
    DocCategoryRow(c.name, c.slug, c.description, Some(c.order))
  }

  /** The column patch of `saveDocCategoriesOrder`: only `order_index` changes. */
  function WithDocCategoryOrder(r: DocCategoryRow, order: int): (r': DocCategoryRow)
    ensures r'.orderIndex == Some(order) && r'.(orderIndex := r.orderIndex) == r
  {
    r.(orderIndex := Some(order))
  }

  // ---------------------------------------------------------------- videos

  datatype VideoRow = VideoRow(title: string, youtubeUrl: string, orderIndex: int)

  function VideoFromRow(id: string, v: VideoRow): Video
  {
    Video(id, v.title, v.youtubeUrl, v.orderIndex)
  }

  function VideoToRow(v: Video): (r: VideoRow)
    ensures VideoFromRow(v.id, r) == v
  {
    VideoRow(v.title, v.youtubeUrl, v.order)
  }

  // ---------------------------------------------------------------- introductions

  datatype IntroductionRow = IntroductionRow(
    title: string, slug: string, content: string, imageUrl: string, orderIndex: int, isVisible: bool)

  function IntroductionFromRow(id: string, i: IntroductionRow): IntroductionArticle
  {
    IntroductionArticle(id, i.title, i.slug, i.content, i.imageUrl, i.orderIndex, i.isVisible)
  }

  function IntroductionToRow(a: IntroductionArticle): (r: IntroductionRow)
    ensures IntroductionFromRow(a.id, r) == a
  {
    IntroductionRow(a.title, a.slug, a.content, a.imageUrl, a.order, a.isVisible)
  }

  // ---------------------------------------------------------------- gallery images

  datatype ImageRow = ImageRow(url: string, caption: string, albumId: string)

  function ImageFromRow(id: string, i: ImageRow): GalleryImage
  {
    GalleryImage(id, i.url, i.caption, i.albumId)
  }

  function ImageToRow(i: GalleryImage): (r: ImageRow)
    ensures ImageFromRow(i.id, r) == i
  {
    ImageRow(i.url, i.caption, i.albumId)
  }

  // ---------------------------------------------------------------- users

  datatype UserRow = UserRow(username: string, fullName: string, role: string)

  function UserFromRow(id: string, u: UserRow): (user: User)
    ensures user.id == id && user.email == u.username + UserEmailDomain
  {
    User(id, u.username, u.fullName, u.role, u.username + UserEmailDomain)
  }

  /** A saved user reads back with its e-mail rebuilt from the user name. */
  function UserToRow(u: User): (r: UserRow)
    ensures UserFromRow(u.id, r) == u.(email := u.username + UserEmailDomain)
  {
    UserRow(u.username, u.fullName, u.role)
  }
}
