/** The shared records of src/types/index.ts. */
module Types {
  import opened Wrappers

  /** The six views the router can show. */
  datatype PageType = Home | Builder | Publish | Gallery | Login | Profile

  /** A gallery entry. The creation date and the preview image are presentation only
      and are not modelled; likes and revenue are non-negative whole numbers. */
  datatype Tool = Tool(
    id: string,
    title: string,
    description: string,
    tags: seq<string>,
    creator: string,
    likes: nat,
    supportLink: Option<string>,
    revenue: Option<nat>)

  /** The builder's output, handed to the publish form through the router. */
  datatype GeneratedPreview = GeneratedPreview(title: string, mockComponent: string, description: string)

  /** A row of the profile's "Created Tools" list. */
  datatype CreatedTool = CreatedTool(title: string, likes: nat, revenue: nat)

  /** What the gallery's monetisation dialog shows. */
  datatype MonetizationStats = MonetizationStats(totalRevenue: nat, usersSubscribed: nat, toolName: string)
}
