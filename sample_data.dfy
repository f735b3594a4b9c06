/** The sample super tags and pages the workspace is seeded with. */
module SampleData {
  import opened Wrappers
  import opened Types

  function Prop(id: string, name: string, kind: PropertyType, options: Option<seq<string>>, required: bool): TagProperty {
    TagProperty(id, name, kind, options, Some(required), None)
  }

  function Block(id: string, kind: BlockType, content: string): ContentBlock {
    ContentBlock(id, kind, content, Some(map[]), None)
  }

  function TodoBlock(id: string, content: string, checked: bool): ContentBlock {
    ContentBlock(id, Todo, content, Some(map["checked" := Bool(checked)]), None)
  }

  function SampleTags(now: nat): seq<SuperTag> {
    [ SuperTag("tag-1", "Project", "#3B82F6", Some("tag"), Some("Project-related pages with status tracking"),
        [ Prop("prop-1", "Status", Select, Some(["Planning", "In Progress", "Completed", "On Hold"]), true),
          Prop("prop-2", "Priority", Select, Some(["Low", "Medium", "High", "Critical"]), false),
          Prop("prop-3", "Due Date", Date, None, false),
          Prop("prop-4", "Team Members", Text, None, false) ],
        now, now),
      SuperTag("tag-2", "Meeting", "#10B981", Some("hash"), Some("Meeting notes with attendees and action items"),
        [ Prop("prop-5", "Date", Date, None, true),
          Prop("prop-6", "Attendees", Text, None, false),
          Prop("prop-7", "Meeting Type", Select, Some(["Standup", "Planning", "Review", "Retrospective", "One-on-One"]), false),
          Prop("prop-8", "Action Items", Text, None, false) ],
        now, now),
      SuperTag("tag-3", "Research", "#8B5CF6", Some("tag"), Some("Research documents and findings"),
        [ Prop("prop-9", "Research Type", Select, Some(["Market Research", "User Research", "Technical Research", "Competitive Analysis"]), false),
          Prop("prop-10", "Confidence Level", Select, Some(["Low", "Medium", "High"]), false),
          Prop("prop-11", "Sources", Text, None, false) ],
        now, now) ]
  }

  function SamplePages(now: nat): seq<Page> {
    [ Page("page-1", "Q1 Product Roadmap",
        [ Block("block-1", Heading1, "Q1 Product Roadmap"),
          Block("block-2", Paragraph, "This document outlines our product roadmap for the first quarter."),
          Block("block-3", Heading2, "Key Features"),
          Block("block-4", BulletedList, "Super Tags implementation"),
          Block("block-5", BulletedList, "Advanced search functionality"),
          Block("block-6", BulletedList, "Real-time collaboration") ],
        None, None, None, ["tag-1"],
        map["Status" := Str("In Progress"), "Priority" := Str("High"), "Due Date" := Str("2024-03-31"),
            "Team Members" := Str("Alice, Bob, Charlie")],
        false, now, now),
      Page("page-2", "Weekly Team Standup - Jan 15",
        [ Block("block-7", Heading1, "Weekly Team Standup"),
          Block("block-8", Paragraph, "Date: January 15, 2024"),
          Block("block-9", Heading2, "Agenda"),
          TodoBlock("block-10", "Review last week's progress", true),
          TodoBlock("block-11", "Discuss current blockers", false),
          TodoBlock("block-12", "Plan next week's priorities", false) ],
        None, None, None, ["tag-2"],
        map["Date" := Str("2024-01-15"), "Attendees" := Str("Alice, Bob, Charlie, Diana"),
            "Meeting Type" := Str("Standup"),
            "Action Items" := Str("Follow up on API integration, Schedule design review")],
        false, now, now),
      Page("page-3", "User Research Findings",
        [ Block("block-13", Heading1, "User Research Findings"),
          Block("block-14", Paragraph, "Key insights from our recent user interviews and surveys."),
          Block("block-15", Heading2, "Key Findings"),
          Block("block-16", Quote, "Users want better organization tools for their content"),
          Block("block-17", Paragraph, "85% of users expressed interest in tag-based organization systems.") ],
        None, None, None, ["tag-3"],
        map["Research Type" := Str("User Research"), "Confidence Level" := Str("High"),
            "Sources" := Str("User interviews (n=20), Survey responses (n=150)")],
        false, now, now) ]
  }

  /**
   * The sample data is consistent: each sample page carries exactly one tag, that
   * tag is in the sample registry at the same position, and every stored property
   * key of the page is the name of one of that tag's properties.
   */
  lemma SampleDataConsistent(now: nat)
    ensures |SamplePages(now)| == |SampleTags(now)| == 3
    ensures forall i :: 0 <= i < 3 ==> SamplePages(now)[i].tags == [SampleTags(now)[i].id]
    ensures forall i, k :: 0 <= i < 3 && k in SamplePages(now)[i].properties ==>
      exists d :: d in SampleTags(now)[i].properties && d.name == k
  {
    var ts, ps := SampleTags(now), SamplePages(now);
    forall i, k | 0 <= i < 3 && k in ps[i].properties
      ensures exists d :: d in ts[i].properties && d.name == k
    {
      var props := ts[i].properties;
      if i == 0 {
        assert k in {"Status", "Priority", "Due Date", "Team Members"};
        assert props[0].name == "Status" && props[1].name == "Priority" && props[2].name == "Due Date" && props[3].name == "Team Members";
      } else if i == 1 {
        assert k in {"Date", "Attendees", "Meeting Type", "Action Items"};
        assert props[0].name == "Date" && props[1].name == "Attendees" && props[2].name == "Meeting Type" && props[3].name == "Action Items";
      } else {
        assert k in {"Research Type", "Confidence Level", "Sources"};
        assert props[0].name == "Research Type" && props[1].name == "Confidence Level" && props[2].name == "Sources";
      }
    }
  }

  /** No sample property defines a default, so reconciling a sample page adds nothing. */
  lemma SampleTagsHaveNoDefaults(now: nat)
    ensures forall t, d :: t in SampleTags(now) && d in t.properties ==> d.defaultValue.None?
  {
  }
}
