// The records the browser-side stores keep: the ad card (the card objects
// of src/lib/storage.ts, src/lib/trash.ts and src/lib/demo-data.ts) and the
// short link of src/lib/shortener.ts.

module Cards {
  import opened Common

  /** Optional members of the card object are `None` when absent. */
  datatype AdCard = AdCard(
    id: string,
    title: string,
    description: Option<string>,
    imageDataUrl: Option<string>,
    language: Option<string>,
    cta: Option<string>,
    keywords: seq<string>,
    category: Option<string>,
    favorited: bool)

  /** A short link: the slug, the address it stands for and its creation time (ISO text). */
  datatype ShortRecord = ShortRecord(slug: string, target: string, createdAt: string)
}
