/** The sixteen cover generators of lib/templates.js, each as its style sheet and
    its markup with the holes where the data, the viewport size and the footer go. */
module TemplateBodies {
  import opened Templates
  import opened JsString

  /** `generateMinimalTemplate`: the style sheet after the viewport rule. */
  const MinimalStyle: Template :=
    Chunk(["",
       "        body { font-family: 'Mulish', -apple-system, BlinkMacSystemFont, sans-serif; }",
       "        .cover {",
       "            width: "],
      Width,
    Chunk(["px;",
       "            height: "],
      Height,
    Chunk(["px;",
       "            background: linear-gradient(135deg, "],
      Color0,
    Chunk([" 0%, "],
      Color1,
    End([" 100%);",
       "            display: flex;",
       "            flex-direction: column;",
       "            justify-content: center;",
       "            padding: 60px 80px;",
       "            position: relative;",
       "        }",
       "        .icon-box {",
       "            position: absolute;",
       "            top: 50px;",
       "            right: 80px;",
       "            width: 100px;",
       "            height: 100px;",
       "            background: rgba(255,255,255,0.15);",
       "            border-radius: 20px;",
       "            display: flex;",
       "            align-items: center;",
       "            justify-content: center;",
       "            font-size: 48px;",
       "        }",
       "        .category {",
       "            font-size: 18px;",
       "            font-weight: 600;",
       "            text-transform: uppercase;",
       "            letter-spacing: 3px;",
       "            opacity: 0.9;",
       "            margin-bottom: 20px;",
       "            color: rgba(255,255,255,0.95);",
       "        }",
       "        .title {",
       "            font-size: 52px;",
       "            font-weight: 700;",
       "            line-height: 1.2;",
       "            color: #ffffff;",
       "            max-width: 85%;",
       "        }",
       "        .footer {",
       "            position: absolute;",
       "            bottom: 30px;",
       "            left: 80px;",
       "            right: 80px;",
       "            display: flex;",
       "            justify-content: space-between;",
       "            align-items: center;",
       "            font-size: 13px;",
       "            color: rgba(255,255,255,0.85);",
       "        }",
       ""])))))

  /** `generateMinimalTemplate`: the markup from `</style>` on. */
  const MinimalMarkup: Template :=
    Chunk(["    </style>",
       "</head>",
       "<body>",
       "    <div class=\"cover\">",
       "        <div class=\"icon-box\">"],
      Icon,
    Chunk(["</div>",
       "        <div class=\"category\">"],
      Label,
    Chunk(["</div>",
       "        <div class=\"title\">"],
      Title,
    Chunk(["</div>",
       "        <div class=\"footer\">",
       "            "],
      Footer("dark"),
    End(["",
       "        </div>",
       "    </div>",
       "</body>",
       "</html>"])))))

  const Minimal := Generator(MinimalStyle, MinimalMarkup)

  /** `generateDarkTemplate`: the style sheet after the viewport rule. */
  const DarkStyle: Template :=
    Chunk(["",
       "        body { font-family: 'Mulish', -apple-system, sans-serif; background: #0a0a0f; }",
       "        .cover {",
       "            width: "],
      Width,
    Chunk(["px;",
       "            height: "],
      Height,
    Chunk(["px;",
       "            background: #0a0a0f;",
       "            display: flex;",
       "            flex-direction: column;",
       "            justify-content: center;",
       "            padding: 50px;",
       "            position: relative;",
       "            overflow: hidden;",
       "        }",
       "        .accent-bar {",
       "            position: absolute;",
       "            left: 0;",
       "            top: 0;",
       "            bottom: 0;",
       "            width: 6px;",
       "            background: linear-gradient(180deg, "],
      Color0,
    Chunk([" 0%, "],
      Color1,
    Chunk([" 100%);",
       "        }",
       "        .bg-shape {",
       "            position: absolute;",
       "            top: 0;",
       "            right: 0;",
       "            width: 50%;",
       "            height: 100%;",
       "            background: linear-gradient(135deg, transparent 0%, rgba("],
      Rgb0,
    Chunk([", 0.1) 100%);",
       "            clip-path: polygon(30% 0, 100% 0, 100% 100%, 0% 100%);",
       "        }",
       "        .icon-badge {",
       "            width: 80px;",
       "            height: 80px;",
       "            background: linear-gradient(135deg, "],
      Color0,
    Chunk([" 0%, "],
      Color1,
    Chunk([" 100%);",
       "            border-radius: 16px;",
       "            display: flex;",
       "            align-items: center;",
       "            justify-content: center;",
       "            font-size: 36px;",
       "            margin-bottom: 25px;",
       "        }",
       "        .category {",
       "            font-size: 13px;",
       "            font-weight: 600;",
       "            text-transform: uppercase;",
       "            letter-spacing: 2px;",
       "            color: "],
      Color0,
    End([";",
       "            margin-bottom: 12px;",
       "        }",
       "        .title {",
       "            font-size: 34px;",
       "            font-weight: 700;",
       "            line-height: 1.3;",
       "            color: #fff;",
       "        }",
       "        .footer {",
       "            position: absolute;",
       "            bottom: 0;",
       "            left: 0;",
       "            right: 0;",
       "            padding: 20px 50px;",
       "            background: rgba(255,255,255,0.03);",
       "            backdrop-filter: blur(10px);",
       "            display: flex;",
       "            justify-content: space-between;",
       "            align-items: center;",
       "            font-size: 13px;",
       "            color: #888;",
       "        }",
       ""])))))))))

  /** `generateDarkTemplate`: the markup from `</style>` on. */
  const DarkMarkup: Template :=
    Chunk(["    </style>",
       "</head>",
       "<body>",
       "    <div class=\"cover\">",
       "        <div class=\"accent-bar\"></div>",
       "        <div class=\"bg-shape\"></div>",
       "        <div class=\"icon-badge\">"],
      Icon,
    Chunk(["</div>",
       "        <div class=\"category\">"],
      Label,
    Chunk(["</div>",
       "        <div class=\"title\">"],
      Title,
    Chunk(["</div>",
       "        <div class=\"footer\">",
       "            "],
      Footer("dark"),
    End(["",
       "        </div>",
       "    </div>",
       "</body>",
       "</html>"])))))

  const Dark := Generator(DarkStyle, DarkMarkup)

  /** `generateSplitTemplate`: the style sheet after the viewport rule. */
  const SplitStyle: Template :=
    Chunk(["",
       "        body { font-family: 'Mulish', -apple-system, sans-serif; }",
       "        .cover {",
       "            width: "],
      Width,
    Chunk(["px;",
       "            height: "],
      Height,
    Chunk(["px;",
       "            display: flex;",
       "            position: relative;",
       "        }",
       "        .left {",
       "            width: 65%;",
       "            background: linear-gradient(135deg, #1e3a5f 0%, #0f172a 100%);",
       "            display: flex;",
       "            flex-direction: column;",
       "            justify-content: center;",
       "            padding: 50px;",
       "            position: relative;",
       "        }",
       "        .right {",
       "            width: 35%;",
       "            background: linear-gradient(135deg, "],
      Color0,
    Chunk([" 0%, "],
      Color1,
    End([" 100%);",
       "            display: flex;",
       "            align-items: center;",
       "            justify-content: center;",
       "            position: relative;",
       "        }",
       "        .right::before {",
       "            content: '';",
       "            position: absolute;",
       "            inset: 0;",
       "            background: url(\"data:image/svg+xml,%3Csvg width='60' height='60' viewBox='0 0 60 60' xmlns='http://www.w3.org/2000/svg'%3E%3Cg fill='none'%3E%3Cg fill='%23ffffff' fill-opacity='0.1'%3E%3Cpath d='M36 34v-4h-2v4h-4v2h4v4h2v-4h4v-2h-4zm0-30V0h-2v4h-4v2h4v4h2V6h4V4h-4zM6 34v-4H4v4H0v2h4v4h2v-4h4v-2H6zM6 4V0H4v4H0v2h4v4h2V6h4V4H6z'/%3E%3C/g%3E%3C/g%3E%3C/svg%3E\");",
       "        }",
       "        .icon-large {",
       "            font-size: 120px;",
       "            position: relative;",
       "            z-index: 1;",
       "        }",
       "        .category {",
       "            font-size: 12px;",
       "            font-weight: 600;",
       "            text-transform: uppercase;",
       "            letter-spacing: 2px;",
       "            color: #60a5fa;",
       "            margin-bottom: 15px;",
       "        }",
       "        .title {",
       "            font-size: 32px;",
       "            font-weight: 700;",
       "            line-height: 1.3;",
       "            color: #fff;",
       "        }",
       "        .footer-bar {",
       "            position: absolute;",
       "            bottom: 0;",
       "            left: 0;",
       "            right: 0;",
       "            height: 36px;",
       "            background: rgba(0,0,0,0.3);",
       "            display: flex;",
       "            align-items: center;",
       "            justify-content: space-between;",
       "            padding: 0 50px;",
       "            font-size: 11px;",
       "            color: #94a3b8;",
       "            z-index: 2;",
       "        }",
       ""])))))

  /** `generateSplitTemplate`: the markup from `</style>` on. */
  const SplitMarkup: Template :=
    Chunk(["    </style>",
       "</head>",
       "<body>",
       "    <div class=\"cover\">",
       "        <div class=\"left\">",
       "            <div class=\"category\">"],
      Label,
    Chunk(["</div>",
       "            <div class=\"title\">"],
      Title,
    Chunk(["</div>",
       "        </div>",
       "        <div class=\"right\">",
       "            <div class=\"icon-large\">"],
      Icon,
    Chunk(["</div>",
       "        </div>",
       "        <div class=\"footer-bar\">",
       "            "],
      Footer("dark"),
    End(["",
       "        </div>",
       "    </div>",
       "</body>",
       "</html>"])))))

  const Split := Generator(SplitStyle, SplitMarkup)

  /** `generateGlassTemplate`: the style sheet after the viewport rule. */
  const GlassStyle: Template :=
    Chunk(["",
       "        body { font-family: 'Mulish', -apple-system, sans-serif; }",
       "        .cover {",
       "            width: "],
      Width,
    Chunk(["px;",
       "            height: "],
      Height,
    Chunk(["px;",
       "            background: linear-gradient(135deg, "],
      Color0,
    Chunk([" 0%, "],
      Color1,
    End([" 100%);",
       "            display: flex;",
       "            flex-direction: column;",
       "            justify-content: center;",
       "            padding: 50px;",
       "            position: relative;",
       "            overflow: hidden;",
       "        }",
       "        .bg-shape {",
       "            position: absolute;",
       "            border-radius: 50%;",
       "            background: rgba(255,255,255,0.1);",
       "            backdrop-filter: blur(20px);",
       "        }",
       "        .shape-1 { width: 300px; height: 300px; top: -100px; right: -50px; }",
       "        .shape-2 { width: 200px; height: 200px; bottom: -50px; left: -50px; }",
       "        .glass-card {",
       "            background: rgba(255,255,255,0.15);",
       "            backdrop-filter: blur(20px);",
       "            border: 1px solid rgba(255,255,255,0.2);",
       "            border-radius: 20px;",
       "            padding: 35px;",
       "            position: relative;",
       "            z-index: 1;",
       "        }",
       "        .category {",
       "            font-size: 12px;",
       "            font-weight: 600;",
       "            text-transform: uppercase;",
       "            letter-spacing: 2px;",
       "            color: rgba(255,255,255,0.8);",
       "            margin-bottom: 12px;",
       "        }",
       "        .title {",
       "            font-size: 30px;",
       "            font-weight: 700;",
       "            line-height: 1.3;",
       "            color: #fff;",
       "        }",
       "        .footer {",
       "            display: flex;",
       "            justify-content: space-between;",
       "            align-items: center;",
       "            margin-top: 20px;",
       "            padding-top: 20px;",
       "            border-top: 1px solid rgba(255,255,255,0.2);",
       "            font-size: 13px;",
       "            color: rgba(255,255,255,0.7);",
       "        }",
       ""])))))

  /** `generateGlassTemplate`: the markup from `</style>` on. */
  const GlassMarkup: Template :=
    Chunk(["    </style>",
       "</head>",
       "<body>",
       "    <div class=\"cover\">",
       "        <div class=\"bg-shape shape-1\"></div>",
       "        <div class=\"bg-shape shape-2\"></div>",
       "        <div class=\"glass-card\">",
       "            <div class=\"category\">"],
      Label,
    Chunk(["</div>",
       "            <div class=\"title\">"],
      Title,
    Chunk(["</div>",
       "            <div class=\"footer\">",
       "                "],
      Footer("dark"),
    End(["",
       "            </div>",
       "        </div>",
       "    </div>",
       "</body>",
       "</html>"]))))

  const Glass := Generator(GlassStyle, GlassMarkup)

  /** `generateNeonTemplate`: the style sheet after the viewport rule. */
  const NeonStyle: Template :=
    Chunk(["",
       "        body { font-family: 'Mulish', -apple-system, sans-serif; background: #0a0a0a; }",
       "        .cover {",
       "            width: "],
      Width,
    Chunk(["px;",
       "            height: "],
      Height,
    Chunk(["px;",
       "            background: #0a0a0a;",
       "            display: flex;",
       "            flex-direction: column;",
       "            justify-content: center;",
       "            padding: 50px;",
       "            position: relative;",
       "            overflow: hidden;",
       "        }",
       "        .grid-bg {",
       "            position: absolute;",
       "            inset: 0;",
       "            background-image:",
       "                linear-gradient(rgba("],
      Rgb0,
    Chunk([", 0.1) 1px, transparent 1px),",
       "                linear-gradient(90deg, rgba("],
      Rgb0,
    Chunk([", 0.1) 1px, transparent 1px);",
       "            background-size: 40px 40px;",
       "            opacity: 0.3;",
       "        }",
       "        .glow-line {",
       "            position: absolute;",
       "            top: 0;",
       "            left: 50%;",
       "            width: 2px;",
       "            height: 100%;",
       "            background: linear-gradient(180deg, "],
      Color0,
    Chunk([" 0%, "],
      Color1,
    Chunk([" 100%);",
       "            box-shadow: 0 0 20px "],
      Color0,
    Chunk([";",
       "        }",
       "        .content { position: relative; z-index: 1; }",
       "        .icon-glow {",
       "            width: 70px;",
       "            height: 70px;",
       "            background: rgba("],
      Rgb0,
    Chunk([", 0.2);",
       "            border: 2px solid "],
      Color0,
    Chunk([";",
       "            border-radius: 16px;",
       "            display: flex;",
       "            align-items: center;",
       "            justify-content: center;",
       "            font-size: 32px;",
       "            margin-bottom: 20px;",
       "            box-shadow: 0 0 30px rgba("],
      Rgb0,
    Chunk([", 0.5);",
       "        }",
       "        .category {",
       "            font-size: 12px;",
       "            font-weight: 600;",
       "            text-transform: uppercase;",
       "            letter-spacing: 3px;",
       "            color: "],
      Color0,
    Chunk([";",
       "            margin-bottom: 12px;",
       "        }",
       "        .title {",
       "            font-size: 32px;",
       "            font-weight: 700;",
       "            line-height: 1.3;",
       "            color: #fff;",
       "            text-shadow: 0 0 20px rgba("],
      Rgb0,
    End([", 0.5);",
       "        }",
       "        .footer {",
       "            position: absolute;",
       "            bottom: 0;",
       "            left: 0;",
       "            right: 0;",
       "            padding: 15px 50px;",
       "            display: flex;",
       "            justify-content: space-between;",
       "            align-items: center;",
       "            font-size: 11px;",
       "            color: #666;",
       "            background: rgba(0,0,0,0.5);",
       "        }",
       ""])))))))))))))

  /** `generateNeonTemplate`: the markup from `</style>` on. */
  const NeonMarkup: Template :=
    Chunk(["    </style>",
       "</head>",
       "<body>",
       "    <div class=\"cover\">",
       "        <div class=\"grid-bg\"></div>",
       "        <div class=\"glow-line\"></div>",
       "        <div class=\"content\">",
       "            <div class=\"icon-glow\">"],
      Icon,
    Chunk(["</div>",
       "            <div class=\"category\">"],
      Label,
    Chunk(["</div>",
       "            <div class=\"title\">"],
      Title,
    Chunk(["</div>",
       "        </div>",
       "        <div class=\"footer\">",
       "            "],
      Footer("dark"),
    End(["",
       "        </div>",
       "    </div>",
       "</body>",
       "</html>"])))))

  const Neon := Generator(NeonStyle, NeonMarkup)

  /** `generateMagazineTemplate`: the style sheet after the viewport rule. */
  const MagazineStyle: Template :=
    Chunk(["",
       "        body { font-family: 'Mulish', -apple-system, sans-serif; }",
       "        .cover {",
       "            width: "],
      Width,
    Chunk(["px;",
       "            height: "],
      Height,
    Chunk(["px;",
       "            background: linear-gradient(to bottom, #f8fafc 0%, #e2e8f0 100%);",
       "            display: flex;",
       "            flex-direction: column;",
       "            padding: 40px;",
       "            position: relative;",
       "        }",
       "        .issue-number {",
       "            position: absolute;",
       "            top: 20px;",
       "            right: 30px;",
       "            font-size: 60px;",
       "            font-weight: 900;",
       "            color: rgba("],
      Rgb0,
    Chunk([", 0.15);",
       "            line-height: 1;",
       "        }",
       "        .eyebrow {",
       "            font-size: 14px;",
       "            font-weight: 700;",
       "            text-transform: uppercase;",
       "            letter-spacing: 3px;",
       "            color: "],
      Color0,
    Chunk([";",
       "            margin-bottom: 15px;",
       "            display: flex;",
       "            align-items: center;",
       "            gap: 10px;",
       "        }",
       "        .title {",
       "            font-size: 38px;",
       "            font-weight: 900;",
       "            line-height: 1.1;",
       "            color: #0f172a;",
       "            margin-bottom: 25px;",
       "        }",
       "        .description {",
       "            font-size: 15px;",
       "            color: #475569;",
       "            line-height: 1.6;",
       "            max-width: 80%;",
       "        }",
       "        .footer {",
       "            position: absolute;",
       "            bottom: 25px;",
       "            left: 40px;",
       "            right: 40px;",
       "            display: flex;",
       "            justify-content: space-between;",
       "            align-items: center;",
       "            padding-top: 20px;",
       "            border-top: 2px solid "],
      Color0,
    End([";",
       "            font-size: 13px;",
       "            color: #64748b;",
       "        }",
       ""]))))))

  /** `generateMagazineTemplate`: the markup from `</style>` on. */
  const MagazineMarkup: Template :=
    Chunk(["    </style>",
       "</head>",
       "<body>",
       "    <div class=\"cover\">",
       "        <div class=\"issue-number\">01</div>",
       "        <div class=\"eyebrow\">",
       "            <span>"],
      Icon,
    Chunk(["</span>",
       "            "],
      Label,
    Chunk(["",
       "        </div>",
       "        <div class=\"title\">"],
      Title,
    Chunk(["</div>",
       "        <div class=\"description\">Approfondimento tecnico su "],
      Label,
    Chunk(["</div>",
       "        <div class=\"footer\">",
       "            "],
      Footer("light"),
    End(["",
       "        </div>",
       "    </div>",
       "</body>",
       "</html>"]))))))

  const Magazine := Generator(MagazineStyle, MagazineMarkup)

  /** `generateCodeTemplate`: the style sheet after the viewport rule. */
  const CodeStyle: Template :=
    Chunk(["",
       "        body { font-family: 'Mulish', -apple-system, sans-serif; }",
       "        .cover {",
       "            width: "],
      Width,
    Chunk(["px;",
       "            height: "],
      Height,
    Chunk(["px;",
       "            background: #1e1e2e;",
       "            display: flex;",
       "            flex-direction: column;",
       "            position: relative;",
       "            overflow: hidden;",
       "        }",
       "        .title-bar {",
       "            background: #181825;",
       "            padding: 12px 20px;",
       "            display: flex;",
       "            align-items: center;",
       "            gap: 8px;",
       "        }",
       "        .dot {",
       "            width: 12px;",
       "            height: 12px;",
       "            border-radius: 50%;",
       "        }",
       "        .dot.red { background: #ff5f56; }",
       "        .dot.yellow { background: #ffbd2e; }",
       "        .dot.green { background: #27ca4b; }",
       "        .content {",
       "            flex: 1;",
       "            padding: 30px 40px;",
       "            display: flex;",
       "            flex-direction: column;",
       "            justify-content: center;",
       "        }",
       "        .code-line {",
       "            font-family: 'Fira Code', 'JetBrains Mono', monospace;",
       "            font-size: 14px;",
       "            margin-bottom: 8px;",
       "        }",
       "        .keyword { color: #c678dd; }",
       "        .string { color: #98c379; }",
       "        .function { color: #61afef; }",
       "        .comment { color: #5c6370; font-style: italic; }",
       "        .category-badge {",
       "            display: inline-flex;",
       "            align-items: center;",
       "            gap: 8px;",
       "            background: rgba("],
      Rgb0,
    Chunk([", 0.2);",
       "            color: "],
      Color0,
    End([";",
       "            padding: 6px 14px;",
       "            border-radius: 6px;",
       "            font-size: 12px;",
       "            font-family: monospace;",
       "            width: fit-content;",
       "            margin-bottom: 15px;",
       "        }",
       "        .title {",
       "            font-size: 28px;",
       "            font-weight: 700;",
       "            color: #abb2bf;",
       "            line-height: 1.4;",
       "        }",
       "        .footer {",
       "            padding: 12px 40px;",
       "            background: #181825;",
       "            display: flex;",
       "            justify-content: space-between;",
       "            align-items: center;",
       "            font-size: 11px;",
       "            color: #5c6370;",
       "        }",
       ""])))))

  /** `generateCodeTemplate`: the markup from `</style>` on. */
  const CodeMarkup: Template :=
    Chunk(["    </style>",
       "</head>",
       "<body>",
       "    <div class=\"cover\">",
       "        <div class=\"title-bar\">",
       "            <div class=\"dot red\"></div>",
       "            <div class=\"dot yellow\"></div>",
       "            <div class=\"dot green\"></div>",
       "        </div>",
       "        <div class=\"content\">",
       "            <div class=\"category-badge\">"],
      Icon,
    Chunk([" "],
      Label,
    Chunk(["</div>",
       "            <div class=\"code-line\"><span class=\"keyword\">const</span> <span class=\"function\">articolo</span> = {</div>",
       "            <div class=\"code-line\" style=\"padding-left: 20px;\"><span class=\"string\">titolo</span>: <span class=\"string\">\""],
      TitleTrunc40,
    Chunk(["\"</span>,</div>",
       "            <div class=\"code-line\" style=\"padding-left: 20px;\"><span class=\"string\">tempo</span>: <span class=\"string\">\""],
      ReadTime,
    Chunk([" min\"</span></div>",
       "            <div class=\"code-line\">};</div>",
       "            <div class=\"code-line comment\">// Leggi l'articolo completo \U{2192}</div>",
       "        </div>",
       "        <div class=\"footer\">",
       "            "],
      Footer("dark"),
    End(["",
       "        </div>",
       "    </div>",
       "</body>",
       "</html>"]))))))

  const Code := Generator(CodeStyle, CodeMarkup)

  /** `generateMeshTemplate`: the style sheet after the viewport rule. */
  const MeshStyle: Template :=
    Chunk(["",
       "        body { font-family: 'Mulish', -apple-system, sans-serif; background: #0f0f1a; }",
       "        .cover {",
       "            width: "],
      Width,
    Chunk(["px;",
       "            height: "],
      Height,
    End(["px;",
       "            background: #0f0f1a;",
       "            display: flex;",
       "            flex-direction: column;",
       "            justify-content: center;",
       "            padding: 50px;",
       "            position: relative;",
       "            overflow: hidden;",
       "        }",
       "        .mesh-gradient {",
       "            position: absolute;",
       "            inset: 0;",
       "            background:",
       "                radial-gradient(at 40% 20%, hsla(257, 76%, 63%, 0.4) 0px, transparent 50%),",
       "                radial-gradient(at 80% 0%, hsla(189, 100%, 56%, 0.3) 0px, transparent 50%),",
       "                radial-gradient(at 0% 50%, hsla(355, 85%, 63%, 0.3) 0px, transparent 50%),",
       "                radial-gradient(at 80% 50%, hsla(340, 80%, 60%, 0.3) 0px, transparent 50%),",
       "                radial-gradient(at 0% 100%, hsla(22, 100%, 60%, 0.3) 0px, transparent 50%);",
       "            filter: blur(40px);",
       "        }",
       "        .content { position: relative; z-index: 1; }",
       "        .icon-float {",
       "            width: 90px;",
       "            height: 90px;",
       "            background: linear-gradient(135deg, rgba(255,255,255,0.2), rgba(255,255,255,0.05));",
       "            border: 1px solid rgba(255,255,255,0.2);",
       "            border-radius: 24px;",
       "            display: flex;",
       "            align-items: center;",
       "            justify-content: center;",
       "            font-size: 40px;",
       "            margin-bottom: 25px;",
       "            backdrop-filter: blur(10px);",
       "        }",
       "        .category {",
       "            font-size: 13px;",
       "            font-weight: 600;",
       "            text-transform: uppercase;",
       "            letter-spacing: 2px;",
       "            color: rgba(255,255,255,0.7);",
       "            margin-bottom: 12px;",
       "        }",
       "        .title {",
       "            font-size: 34px;",
       "            font-weight: 700;",
       "            line-height: 1.3;",
       "            color: #fff;",
       "        }",
       "        .footer-bar {",
       "            position: absolute;",
       "            bottom: 0;",
       "            left: 0;",
       "            right: 0;",
       "            height: 36px;",
       "            background: rgba(0,0,0,0.4);",
       "            display: flex;",
       "            align-items: center;",
       "            justify-content: space-between;",
       "            padding: 0 50px;",
       "            font-size: 11px;",
       "            color: #888;",
       "            z-index: 2;",
       "        }",
       ""])))

  /** `generateMeshTemplate`: the markup from `</style>` on. */
  const MeshMarkup: Template :=
    Chunk(["    </style>",
       "</head>",
       "<body>",
       "    <div class=\"cover\">",
       "        <div class=\"mesh-gradient\"></div>",
       "        <div class=\"content\">",
       "            <div class=\"icon-float\">"],
      Icon,
    Chunk(["</div>",
       "            <div class=\"category\">"],
      Label,
    Chunk(["</div>",
       "            <div class=\"title\">"],
      Title,
    Chunk(["</div>",
       "        </div>",
       "        <div class=\"footer-bar\">",
       "            "],
      Footer("dark"),
    End(["",
       "        </div>",
       "    </div>",
       "</body>",
       "</html>"])))))

  const Mesh := Generator(MeshStyle, MeshMarkup)

  /** `generateTerminalTemplate`: the style sheet after the viewport rule. */
  const TerminalStyle: Template :=
    Chunk(["",
       "        body { font-family: 'Fira Code', 'JetBrains Mono', 'Courier New', monospace; background: #0c0c0c; }",
       "        .cover {",
       "            width: "],
      Width,
    Chunk(["px;",
       "            height: "],
      Height,
    Chunk(["px;",
       "            background: #0c0c0c;",
       "            display: flex;",
       "            flex-direction: column;",
       "            position: relative;",
       "            overflow: hidden;",
       "        }",
       "        .scanlines {",
       "            position: absolute;",
       "            inset: 0;",
       "            background: repeating-linear-gradient(",
       "                0deg,",
       "                transparent,",
       "                transparent 2px,",
       "                rgba(0,0,0,0.15) 2px,",
       "                rgba(0,0,0,0.15) 4px",
       "            );",
       "            pointer-events: none;",
       "            z-index: 3;",
       "        }",
       "        .tab-bar {",
       "            background: #1a1a2e;",
       "            padding: 10px 20px;",
       "            display: flex;",
       "            align-items: center;",
       "            gap: 12px;",
       "            border-bottom: 1px solid #333;",
       "        }",
       "        .tab {",
       "            padding: 6px 16px;",
       "            border-radius: 6px 6px 0 0;",
       "            font-size: 12px;",
       "            color: #888;",
       "        }",
       "        .tab.active {",
       "            background: #0c0c0c;",
       "            color: "],
      Color0,
    Chunk([";",
       "        }",
       "        .terminal {",
       "            flex: 1;",
       "            padding: 30px 40px;",
       "            display: flex;",
       "            flex-direction: column;",
       "            justify-content: center;",
       "            position: relative;",
       "            z-index: 1;",
       "        }",
       "        .line {",
       "            font-size: 15px;",
       "            line-height: 2;",
       "            color: #c0c0c0;",
       "        }",
       "        .prompt { color: "],
      Color0,
    Chunk(["; }",
       "        .flag { color: "],
      Color1,
    Chunk(["; }",
       "        .str { color: #98c379; }",
       "        .dim { color: #555; }",
       "        .comment { color: #555; font-style: italic; }",
       "        .cursor {",
       "            display: inline-block;",
       "            width: 10px;",
       "            height: 18px;",
       "            background: "],
      Color0,
    End([";",
       "            vertical-align: text-bottom;",
       "            opacity: 0.8;",
       "        }",
       "        .footer {",
       "            padding: 12px 40px;",
       "            background: #1a1a2e;",
       "            display: flex;",
       "            justify-content: space-between;",
       "            align-items: center;",
       "            font-size: 11px;",
       "            color: #555;",
       "            font-family: 'Fira Code', 'JetBrains Mono', monospace;",
       "        }",
       ""])))))))

  /** `generateTerminalTemplate`: the markup from `</style>` on. */
  const TerminalMarkup: Template :=
    Chunk(["    </style>",
       "</head>",
       "<body>",
       "    <div class=\"cover\">",
       "        <div class=\"scanlines\"></div>",
       "        <div class=\"tab-bar\">",
       "            <span class=\"tab active\">"],
      Icon,
    Chunk([" "],
      Label,
    Chunk(["</span>",
       "            <span class=\"tab\">zsh</span>",
       "        </div>",
       "        <div class=\"terminal\">",
       "            <div class=\"line\"><span class=\"dim\"># "],
      Label,
    Chunk(["</span></div>",
       "            <div class=\"line\"><span class=\"prompt\">$</span> cat <span class=\"str\">article.md</span> <span class=\"flag\">--title</span></div>",
       "            <div class=\"line\"><span class=\"str\">\""],
      Title,
    Chunk(["\"</span></div>",
       "            <div class=\"line\"></div>",
       "            <div class=\"line\"><span class=\"prompt\">$</span> read <span class=\"flag\">--estimate</span></div>",
       "            <div class=\"line\">\U{23F1}\U{FE0F}  "],
      ReadTime,
    Chunk([" min</div>",
       "            <div class=\"line\"></div>",
       "            <div class=\"line\"><span class=\"prompt\">$</span> <span class=\"cursor\"></span></div>",
       "        </div>",
       "        <div class=\"footer\">",
       "            "],
      Footer("dark"),
    End(["",
       "        </div>",
       "    </div>",
       "</body>",
       "</html>"])))))))

  const Terminal := Generator(TerminalStyle, TerminalMarkup)

  /** `generatePolaroidTemplate`: the style sheet after the viewport rule. */
  const PolaroidStyle: Template :=
    Chunk(["",
       "        body { font-family: 'Mulish', -apple-system, sans-serif; }",
       "        .cover {",
       "            width: "],
      Width,
    Chunk(["px;",
       "            height: "],
      Height,
    Chunk(["px;",
       "            background: #f1f5f9;",
       "            display: flex;",
       "            align-items: center;",
       "            justify-content: center;",
       "            position: relative;",
       "        }",
       "        .bg-dots {",
       "            position: absolute;",
       "            inset: 0;",
       "            background-image: radial-gradient(circle, #cbd5e1 1px, transparent 1px);",
       "            background-size: 24px 24px;",
       "            opacity: 0.5;",
       "        }",
       "        .card {",
       "            width: 82%;",
       "            background: #fff;",
       "            border-radius: 4px;",
       "            box-shadow: 0 25px 60px rgba(0,0,0,0.12), 0 4px 12px rgba(0,0,0,0.08);",
       "            padding: 30px 30px 40px 30px;",
       "            position: relative;",
       "            z-index: 1;",
       "            transform: rotate(-1.5deg);",
       "        }",
       "        .photo {",
       "            width: 100%;",
       "            height: 55%;",
       "            background: linear-gradient(135deg, "],
      Color0,
    Chunk([" 0%, "],
      Color1,
    End([" 100%);",
       "            border-radius: 2px;",
       "            display: flex;",
       "            align-items: center;",
       "            justify-content: center;",
       "            margin-bottom: 24px;",
       "            position: relative;",
       "            min-height: 280px;",
       "        }",
       "        .photo-icon {",
       "            font-size: 80px;",
       "            filter: drop-shadow(0 4px 12px rgba(0,0,0,0.2));",
       "        }",
       "        .photo-label {",
       "            position: absolute;",
       "            top: 16px;",
       "            left: 20px;",
       "            font-size: 11px;",
       "            font-weight: 700;",
       "            text-transform: uppercase;",
       "            letter-spacing: 2px;",
       "            color: rgba(255,255,255,0.85);",
       "            background: rgba(0,0,0,0.2);",
       "            padding: 4px 12px;",
       "            border-radius: 4px;",
       "        }",
       "        .caption {",
       "            font-size: 22px;",
       "            font-weight: 700;",
       "            color: #1e293b;",
       "            line-height: 1.3;",
       "            margin-bottom: 10px;",
       "        }",
       "        .meta-row {",
       "            display: flex;",
       "            justify-content: space-between;",
       "            align-items: center;",
       "            font-size: 12px;",
       "            color: #94a3b8;",
       "        }",
       ""])))))

  /** `generatePolaroidTemplate`: the markup from `</style>` on. */
  const PolaroidMarkup: Template :=
    Chunk(["    </style>",
       "</head>",
       "<body>",
       "    <div class=\"cover\">",
       "        <div class=\"bg-dots\"></div>",
       "        <div class=\"card\">",
       "            <div class=\"photo\">",
       "                <span class=\"photo-label\">"],
      Label,
    Chunk(["</span>",
       "                <span class=\"photo-icon\">"],
      Icon,
    Chunk(["</span>",
       "            </div>",
       "            <div class=\"caption\">"],
      Title,
    Chunk(["</div>",
       "            <div class=\"meta-row\">",
       "                "],
      Footer("light"),
    End(["",
       "            </div>",
       "        </div>",
       "    </div>",
       "</body>",
       "</html>"])))))

  const Polaroid := Generator(PolaroidStyle, PolaroidMarkup)

  /** `generateBlueprintTemplate`: the style sheet after the viewport rule. */
  const BlueprintStyle: Template :=
    Chunk(["",
       "        body { font-family: 'Mulish', -apple-system, sans-serif; }",
       "        .cover {",
       "            width: "],
      Width,
    Chunk(["px;",
       "            height: "],
      Height,
    Chunk(["px;",
       "            background: "],
      Color0,
    End([";",
       "            display: flex;",
       "            flex-direction: column;",
       "            justify-content: center;",
       "            padding: 50px 60px;",
       "            position: relative;",
       "            overflow: hidden;",
       "        }",
       "        .grid {",
       "            position: absolute;",
       "            inset: 0;",
       "            background-image:",
       "                linear-gradient(rgba(255,255,255,0.06) 1px, transparent 1px),",
       "                linear-gradient(90deg, rgba(255,255,255,0.06) 1px, transparent 1px);",
       "            background-size: 30px 30px;",
       "        }",
       "        .grid-major {",
       "            position: absolute;",
       "            inset: 0;",
       "            background-image:",
       "                linear-gradient(rgba(255,255,255,0.12) 1px, transparent 1px),",
       "                linear-gradient(90deg, rgba(255,255,255,0.12) 1px, transparent 1px);",
       "            background-size: 150px 150px;",
       "        }",
       "        .corner-mark {",
       "            position: absolute;",
       "            width: 40px;",
       "            height: 40px;",
       "            border: 2px solid rgba(255,255,255,0.25);",
       "        }",
       "        .corner-tl { top: 30px; left: 30px; border-right: none; border-bottom: none; }",
       "        .corner-tr { top: 30px; right: 30px; border-left: none; border-bottom: none; }",
       "        .corner-bl { bottom: 30px; left: 30px; border-right: none; border-top: none; }",
       "        .corner-br { bottom: 30px; right: 30px; border-left: none; border-top: none; }",
       "        .content { position: relative; z-index: 1; }",
       "        .ref-number {",
       "            font-size: 11px;",
       "            font-weight: 600;",
       "            letter-spacing: 3px;",
       "            text-transform: uppercase;",
       "            color: rgba(255,255,255,0.4);",
       "            margin-bottom: 20px;",
       "            font-family: 'Fira Code', monospace;",
       "        }",
       "        .icon-circle {",
       "            width: 70px;",
       "            height: 70px;",
       "            border: 2px solid rgba(255,255,255,0.4);",
       "            border-radius: 50%;",
       "            display: flex;",
       "            align-items: center;",
       "            justify-content: center;",
       "            font-size: 32px;",
       "            margin-bottom: 20px;",
       "        }",
       "        .title {",
       "            font-size: 36px;",
       "            font-weight: 700;",
       "            line-height: 1.25;",
       "            color: #fff;",
       "            max-width: 90%;",
       "        }",
       "        .dimension-line {",
       "            position: absolute;",
       "            right: 60px;",
       "            top: 50%;",
       "            transform: translateY(-50%);",
       "            width: 2px;",
       "            height: 60%;",
       "            background: rgba(255,255,255,0.15);",
       "        }",
       "        .dimension-line::before, .dimension-line::after {",
       "            content: '';",
       "            position: absolute;",
       "            left: -4px;",
       "            width: 10px;",
       "            height: 2px;",
       "            background: rgba(255,255,255,0.15);",
       "        }",
       "        .dimension-line::before { top: 0; }",
       "        .dimension-line::after { bottom: 0; }",
       "        .footer {",
       "            position: absolute;",
       "            bottom: 0;",
       "            left: 0;",
       "            right: 0;",
       "            padding: 15px 60px;",
       "            display: flex;",
       "            justify-content: space-between;",
       "            align-items: center;",
       "            font-size: 11px;",
       "            color: rgba(255,255,255,0.45);",
       "            border-top: 1px solid rgba(255,255,255,0.1);",
       "            z-index: 1;",
       "        }",
       ""]))))

  /** `generateBlueprintTemplate`: the markup from `</style>` on. */
  const BlueprintMarkup: Template :=
    Chunk(["    </style>",
       "</head>",
       "<body>",
       "    <div class=\"cover\">",
       "        <div class=\"grid\"></div>",
       "        <div class=\"grid-major\"></div>",
       "        <div class=\"corner-mark corner-tl\"></div>",
       "        <div class=\"corner-mark corner-tr\"></div>",
       "        <div class=\"corner-mark corner-bl\"></div>",
       "        <div class=\"corner-mark corner-br\"></div>",
       "        <div class=\"dimension-line\"></div>",
       "        <div class=\"content\">",
       "            <div class=\"ref-number\">REF. "],
      Label,
    Chunk(["</div>",
       "            <div class=\"icon-circle\">"],
      Icon,
    Chunk(["</div>",
       "            <div class=\"title\">"],
      Title,
    Chunk(["</div>",
       "        </div>",
       "        <div class=\"footer\">",
       "            "],
      Footer("dark"),
    End(["",
       "        </div>",
       "    </div>",
       "</body>",
       "</html>"])))))

  const Blueprint := Generator(BlueprintStyle, BlueprintMarkup)

  /** `generateDuotoneTemplate`: the style sheet after the viewport rule. */
  const DuotoneStyle: Template :=
    Chunk(["",
       "        body { font-family: 'Mulish', -apple-system, sans-serif; }",
       "        .cover {",
       "            width: "],
      Width,
    Chunk(["px;",
       "            height: "],
      Height,
    Chunk(["px;",
       "            position: relative;",
       "            overflow: hidden;",
       "        }",
       "        .bg-left {",
       "            position: absolute;",
       "            top: 0;",
       "            left: 0;",
       "            width: 100%;",
       "            height: 100%;",
       "            background: "],
      Color0,
    Chunk([";",
       "        }",
       "        .bg-right {",
       "            position: absolute;",
       "            top: 0;",
       "            right: 0;",
       "            width: 55%;",
       "            height: 100%;",
       "            background: "],
      Color1,
    End([";",
       "            clip-path: polygon(20% 0, 100% 0, 100% 100%, 0% 100%);",
       "        }",
       "        .content {",
       "            position: relative;",
       "            z-index: 1;",
       "            height: 100%;",
       "            display: flex;",
       "            flex-direction: column;",
       "            justify-content: center;",
       "            padding: 50px 60px;",
       "        }",
       "        .icon-row {",
       "            display: flex;",
       "            align-items: center;",
       "            gap: 16px;",
       "            margin-bottom: 20px;",
       "        }",
       "        .icon-bg {",
       "            width: 60px;",
       "            height: 60px;",
       "            background: rgba(255,255,255,0.2);",
       "            border-radius: 14px;",
       "            display: flex;",
       "            align-items: center;",
       "            justify-content: center;",
       "            font-size: 30px;",
       "        }",
       "        .category {",
       "            font-size: 14px;",
       "            font-weight: 700;",
       "            text-transform: uppercase;",
       "            letter-spacing: 3px;",
       "            color: rgba(255,255,255,0.85);",
       "        }",
       "        .title {",
       "            font-size: 48px;",
       "            font-weight: 900;",
       "            line-height: 1.1;",
       "            color: #fff;",
       "            max-width: 75%;",
       "        }",
       "        .footer {",
       "            position: absolute;",
       "            bottom: 0;",
       "            left: 0;",
       "            right: 0;",
       "            padding: 20px 60px;",
       "            display: flex;",
       "            justify-content: space-between;",
       "            align-items: center;",
       "            font-size: 13px;",
       "            color: rgba(255,255,255,0.7);",
       "            z-index: 1;",
       "        }",
       ""])))))

  /** `generateDuotoneTemplate`: the markup from `</style>` on. */
  const DuotoneMarkup: Template :=
    Chunk(["    </style>",
       "</head>",
       "<body>",
       "    <div class=\"cover\">",
       "        <div class=\"bg-left\"></div>",
       "        <div class=\"bg-right\"></div>",
       "        <div class=\"content\">",
       "            <div class=\"icon-row\">",
       "                <div class=\"icon-bg\">"],
      Icon,
    Chunk(["</div>",
       "                <div class=\"category\">"],
      Label,
    Chunk(["</div>",
       "            </div>",
       "            <div class=\"title\">"],
      Title,
    Chunk(["</div>",
       "        </div>",
       "        <div class=\"footer\">",
       "            "],
      Footer("dark"),
    End(["",
       "        </div>",
       "    </div>",
       "</body>",
       "</html>"])))))

  const Duotone := Generator(DuotoneStyle, DuotoneMarkup)

  /** `generateRetroTemplate`: the style sheet after the viewport rule. */
  const RetroStyle: Template :=
    Chunk(["",
       "        body { font-family: 'Courier New', monospace; background: #1a1a2e; }",
       "        .cover {",
       "            width: "],
      Width,
    Chunk(["px;",
       "            height: "],
      Height,
    Chunk(["px;",
       "            background: #1a1a2e;",
       "            display: flex;",
       "            flex-direction: column;",
       "            justify-content: center;",
       "            padding: 50px 60px;",
       "            position: relative;",
       "            overflow: hidden;",
       "        }",
       "        .scanlines {",
       "            position: absolute;",
       "            inset: 0;",
       "            background: repeating-linear-gradient(",
       "                0deg,",
       "                transparent,",
       "                transparent 3px,",
       "                rgba(0,0,0,0.2) 3px,",
       "                rgba(0,0,0,0.2) 6px",
       "            );",
       "            pointer-events: none;",
       "            z-index: 3;",
       "        }",
       "        .noise {",
       "            position: absolute;",
       "            inset: 0;",
       "            background: radial-gradient(ellipse at center, transparent 0%, rgba(0,0,0,0.4) 100%);",
       "            z-index: 2;",
       "        }",
       "        .stripe-top, .stripe-bottom {",
       "            position: absolute;",
       "            left: 0;",
       "            right: 0;",
       "            height: 4px;",
       "        }",
       "        .stripe-top {",
       "            top: 40px;",
       "            background: linear-gradient(90deg, "],
      Color0,
    Chunk([", "],
      Color1,
    Chunk([", "],
      Color0,
    Chunk([");",
       "        }",
       "        .stripe-bottom {",
       "            bottom: 60px;",
       "            background: linear-gradient(90deg, "],
      Color1,
    Chunk([", "],
      Color0,
    Chunk([", "],
      Color1,
    Chunk([");",
       "        }",
       "        .content { position: relative; z-index: 1; }",
       "        .header-line {",
       "            font-size: 11px;",
       "            letter-spacing: 4px;",
       "            text-transform: uppercase;",
       "            color: "],
      Color0,
    Chunk([";",
       "            margin-bottom: 8px;",
       "            opacity: 0.8;",
       "        }",
       "        .icon-text {",
       "            font-size: 60px;",
       "            margin-bottom: 16px;",
       "        }",
       "        .category {",
       "            display: inline-block;",
       "            font-size: 13px;",
       "            font-weight: 700;",
       "            text-transform: uppercase;",
       "            letter-spacing: 3px;",
       "            color: #1a1a2e;",
       "            background: "],
      Color0,
    Chunk([";",
       "            padding: 5px 14px;",
       "            margin-bottom: 16px;",
       "        }",
       "        .title {",
       "            font-size: 32px;",
       "            font-weight: 700;",
       "            line-height: 1.35;",
       "            color: #e0e0e0;",
       "            font-family: 'Mulish', -apple-system, sans-serif;",
       "            max-width: 85%;",
       "        }",
       "        .blink-line {",
       "            margin-top: 20px;",
       "            font-size: 14px;",
       "            color: "],
      Color1,
    End([";",
       "        }",
       "        .footer {",
       "            position: absolute;",
       "            bottom: 0;",
       "            left: 0;",
       "            right: 0;",
       "            padding: 12px 60px;",
       "            display: flex;",
       "            justify-content: space-between;",
       "            align-items: center;",
       "            font-size: 11px;",
       "            color: #555;",
       "            z-index: 4;",
       "            font-family: 'Courier New', monospace;",
       "        }",
       ""]))))))))))))

  /** `generateRetroTemplate`: the markup from `</style>` on. */
  const RetroMarkup: Template :=
    Chunk(["    </style>",
       "</head>",
       "<body>",
       "    <div class=\"cover\">",
       "        <div class=\"scanlines\"></div>",
       "        <div class=\"noise\"></div>",
       "        <div class=\"stripe-top\"></div>",
       "        <div class=\"stripe-bottom\"></div>",
       "        <div class=\"content\">",
       "            <div class=\"header-line\">/// "],
      Brand,
    Chunk([" ///</div>",
       "            <div class=\"icon-text\">"],
      Icon,
    Chunk(["</div>",
       "            <div class=\"category\">"],
      Label,
    Chunk(["</div>",
       "            <div class=\"title\">"],
      Title,
    Chunk(["</div>",
       "            <div class=\"blink-line\">> READ MORE _ \U{23F1}\U{FE0F} "],
      ReadTime,
    Chunk([" min</div>",
       "        </div>",
       "        <div class=\"footer\">",
       "            "],
      Footer("dark"),
    End(["",
       "        </div>",
       "    </div>",
       "</body>",
       "</html>"])))))))

  const Retro := Generator(RetroStyle, RetroMarkup)

  /** `generateWaveTemplate`: the style sheet after the viewport rule. */
  const WaveStyle: Template :=
    Chunk(["",
       "        body { font-family: 'Mulish', -apple-system, sans-serif; }",
       "        .cover {",
       "            width: "],
      Width,
    Chunk(["px;",
       "            height: "],
      Height,
    Chunk(["px;",
       "            background: #0f172a;",
       "            display: flex;",
       "            flex-direction: column;",
       "            justify-content: center;",
       "            padding: 50px 60px;",
       "            position: relative;",
       "            overflow: hidden;",
       "        }",
       "        .wave {",
       "            position: absolute;",
       "            left: 0;",
       "            right: 0;",
       "            height: 200px;",
       "        }",
       "        .wave-1 {",
       "            bottom: -20px;",
       "            background: linear-gradient(135deg, rgba("],
      Rgb0,
    Chunk([", 0.6), rgba("],
      Rgb1,
    Chunk([", 0.6));",
       "            clip-path: polygon(",
       "                0% 60%, 5% 55%, 10% 52%, 15% 50%, 20% 50%, 25% 52%,",
       "                30% 55%, 35% 58%, 40% 60%, 45% 58%, 50% 55%, 55% 50%,",
       "                60% 48%, 65% 50%, 70% 55%, 75% 60%, 80% 62%, 85% 58%,",
       "                90% 52%, 95% 50%, 100% 52%, 100% 100%, 0% 100%",
       "            );",
       "            z-index: 1;",
       "        }",
       "        .wave-2 {",
       "            bottom: -40px;",
       "            background: linear-gradient(135deg, rgba("],
      Rgb0,
    Chunk([", 0.3), rgba("],
      Rgb1,
    Chunk([", 0.3));",
       "            clip-path: polygon(",
       "                0% 70%, 5% 65%, 10% 60%, 15% 58%, 20% 60%, 25% 65%,",
       "                30% 68%, 35% 70%, 40% 68%, 45% 62%, 50% 58%, 55% 55%,",
       "                60% 58%, 65% 62%, 70% 68%, 75% 72%, 80% 70%, 85% 65%,",
       "                90% 60%, 95% 58%, 100% 62%, 100% 100%, 0% 100%",
       "            );",
       "        }",
       "        .wave-3 {",
       "            bottom: -60px;",
       "            background: linear-gradient(135deg, rgba("],
      Rgb0,
    Chunk([", 0.15), rgba("],
      Rgb1,
    Chunk([", 0.15));",
       "            clip-path: polygon(",
       "                0% 80%, 5% 75%, 10% 72%, 15% 70%, 20% 72%, 25% 75%,",
       "                30% 78%, 35% 80%, 40% 78%, 45% 72%, 50% 68%, 55% 65%,",
       "                60% 68%, 65% 72%, 70% 78%, 75% 82%, 80% 80%, 85% 75%,",
       "                90% 70%, 95% 68%, 100% 72%, 100% 100%, 0% 100%",
       "            );",
       "        }",
       "        .top-glow {",
       "            position: absolute;",
       "            top: -80px;",
       "            right: -80px;",
       "            width: 350px;",
       "            height: 350px;",
       "            background: radial-gradient(circle, rgba("],
      Rgb0,
    Chunk([", 0.2) 0%, transparent 70%);",
       "        }",
       "        .content { position: relative; z-index: 2; }",
       "        .badge {",
       "            display: inline-flex;",
       "            align-items: center;",
       "            gap: 10px;",
       "            background: rgba(255,255,255,0.08);",
       "            border: 1px solid rgba(255,255,255,0.12);",
       "            padding: 8px 18px;",
       "            border-radius: 50px;",
       "            font-size: 13px;",
       "            color: "],
      Color0,
    End([";",
       "            font-weight: 600;",
       "            text-transform: uppercase;",
       "            letter-spacing: 1px;",
       "            margin-bottom: 20px;",
       "            width: fit-content;",
       "        }",
       "        .title {",
       "            font-size: 40px;",
       "            font-weight: 800;",
       "            line-height: 1.15;",
       "            color: #fff;",
       "            max-width: 80%;",
       "        }",
       "        .footer {",
       "            position: absolute;",
       "            bottom: 0;",
       "            left: 0;",
       "            right: 0;",
       "            padding: 14px 60px;",
       "            display: flex;",
       "            justify-content: space-between;",
       "            align-items: center;",
       "            font-size: 11px;",
       "            color: rgba(255,255,255,0.4);",
       "            z-index: 3;",
       "        }",
       ""])))))))))))

  /** `generateWaveTemplate`: the markup from `</style>` on. */
  const WaveMarkup: Template :=
    Chunk(["    </style>",
       "</head>",
       "<body>",
       "    <div class=\"cover\">",
       "        <div class=\"top-glow\"></div>",
       "        <div class=\"wave wave-3\"></div>",
       "        <div class=\"wave wave-2\"></div>",
       "        <div class=\"wave wave-1\"></div>",
       "        <div class=\"content\">",
       "            <div class=\"badge\">",
       "                <span>"],
      Icon,
    Chunk(["</span>",
       "                <span>"],
      Label,
    Chunk(["</span>",
       "            </div>",
       "            <div class=\"title\">"],
      Title,
    Chunk(["</div>",
       "        </div>",
       "        <div class=\"footer\">",
       "            "],
      Footer("dark"),
    End(["",
       "        </div>",
       "    </div>",
       "</body>",
       "</html>"])))))

  const Wave := Generator(WaveStyle, WaveMarkup)

  /** `generateOutlineTemplate`: the style sheet after the viewport rule. */
  const OutlineStyle: Template :=
    Chunk(["",
       "        body { font-family: 'Mulish', -apple-system, sans-serif; }",
       "        .cover {",
       "            width: "],
      Width,
    Chunk(["px;",
       "            height: "],
      Height,
    Chunk(["px;",
       "            background: #fafafa;",
       "            display: flex;",
       "            flex-direction: column;",
       "            justify-content: center;",
       "            padding: 50px 60px;",
       "            position: relative;",
       "            overflow: hidden;",
       "        }",
       "        .border-frame {",
       "            position: absolute;",
       "            top: 20px;",
       "            left: 20px;",
       "            right: 20px;",
       "            bottom: 20px;",
       "            border: 2px solid "],
      Color0,
    Chunk([";",
       "            border-radius: 8px;",
       "        }",
       "        .accent-dot {",
       "            position: absolute;",
       "            width: 120px;",
       "            height: 120px;",
       "            border-radius: 50%;",
       "            border: 2px solid "],
      Color1,
    Chunk([";",
       "            top: -30px;",
       "            right: -30px;",
       "            opacity: 0.3;",
       "        }",
       "        .accent-dot-2 {",
       "            position: absolute;",
       "            width: 80px;",
       "            height: 80px;",
       "            border-radius: 50%;",
       "            border: 2px solid "],
      Color0,
    Chunk([";",
       "            bottom: 60px;",
       "            right: 80px;",
       "            opacity: 0.15;",
       "        }",
       "        .content { position: relative; z-index: 1; }",
       "        .icon-outline {",
       "            width: 64px;",
       "            height: 64px;",
       "            border: 2px solid "],
      Color0,
    Chunk([";",
       "            border-radius: 16px;",
       "            display: flex;",
       "            align-items: center;",
       "            justify-content: center;",
       "            font-size: 28px;",
       "            margin-bottom: 24px;",
       "        }",
       "        .category {",
       "            font-size: 12px;",
       "            font-weight: 700;",
       "            text-transform: uppercase;",
       "            letter-spacing: 3px;",
       "            color: "],
      Color0,
    Chunk([";",
       "            margin-bottom: 12px;",
       "        }",
       "        .title {",
       "            font-size: 38px;",
       "            font-weight: 800;",
       "            line-height: 1.15;",
       "            color: #1a1a1a;",
       "            max-width: 85%;",
       "        }",
       "        .accent-line {",
       "            width: 60px;",
       "            height: 4px;",
       "            background: linear-gradient(90deg, "],
      Color0,
    Chunk([", "],
      Color1,
    End([");",
       "            border-radius: 2px;",
       "            margin-top: 24px;",
       "        }",
       "        .footer {",
       "            position: absolute;",
       "            bottom: 30px;",
       "            left: 60px;",
       "            right: 60px;",
       "            display: flex;",
       "            justify-content: space-between;",
       "            align-items: center;",
       "            font-size: 12px;",
       "            color: #999;",
       "            z-index: 1;",
       "        }",
       ""]))))))))))

  /** `generateOutlineTemplate`: the markup from `</style>` on. */
  const OutlineMarkup: Template :=
    Chunk(["    </style>",
       "</head>",
       "<body>",
       "    <div class=\"cover\">",
       "        <div class=\"border-frame\"></div>",
       "        <div class=\"accent-dot\"></div>",
       "        <div class=\"accent-dot-2\"></div>",
       "        <div class=\"content\">",
       "            <div class=\"icon-outline\">"],
      Icon,
    Chunk(["</div>",
       "            <div class=\"category\">"],
      Label,
    Chunk(["</div>",
       "            <div class=\"title\">"],
      Title,
    Chunk(["</div>",
       "            <div class=\"accent-line\"></div>",
       "        </div>",
       "        <div class=\"footer\">",
       "            "],
      Footer("light"),
    End(["",
       "        </div>",
       "    </div>",
       "</body>",
       "</html>"])))))

  const Outline := Generator(OutlineStyle, OutlineMarkup)

  /** `generateStackTemplate`: the style sheet after the viewport rule. */
  const StackStyle: Template :=
    Chunk(["",
       "        body { font-family: 'Mulish', -apple-system, sans-serif; }",
       "        .cover {",
       "            width: "],
      Width,
    Chunk(["px;",
       "            height: "],
      Height,
    Chunk(["px;",
       "            background: linear-gradient(135deg, #1e293b 0%, #0f172a 100%);",
       "            display: flex;",
       "            align-items: center;",
       "            justify-content: center;",
       "            position: relative;",
       "            overflow: hidden;",
       "        }",
       "        .card-back-2 {",
       "            position: absolute;",
       "            width: 76%;",
       "            height: 72%;",
       "            background: rgba("],
      Rgb0,
    Chunk([", 0.15);",
       "            border-radius: 16px;",
       "            transform: rotate(4deg) translateY(-8px);",
       "            border: 1px solid rgba("],
      Rgb0,
    Chunk([", 0.2);",
       "        }",
       "        .card-back-1 {",
       "            position: absolute;",
       "            width: 78%;",
       "            height: 74%;",
       "            background: rgba("],
      Rgb0,
    Chunk([", 0.25);",
       "            border-radius: 16px;",
       "            transform: rotate(2deg) translateY(-4px);",
       "            border: 1px solid rgba("],
      Rgb0,
    Chunk([", 0.3);",
       "        }",
       "        .card-main {",
       "            position: relative;",
       "            width: 80%;",
       "            height: 76%;",
       "            background: linear-gradient(160deg, "],
      Color0,
    Chunk(["ee, "],
      Color1,
    End(["dd);",
       "            border-radius: 16px;",
       "            display: flex;",
       "            flex-direction: column;",
       "            justify-content: center;",
       "            padding: 40px 50px;",
       "            z-index: 1;",
       "            box-shadow: 0 20px 60px rgba(0,0,0,0.4);",
       "        }",
       "        .badge {",
       "            display: inline-flex;",
       "            align-items: center;",
       "            gap: 8px;",
       "            background: rgba(255,255,255,0.2);",
       "            backdrop-filter: blur(10px);",
       "            padding: 6px 16px;",
       "            border-radius: 8px;",
       "            font-size: 12px;",
       "            font-weight: 600;",
       "            color: rgba(255,255,255,0.9);",
       "            text-transform: uppercase;",
       "            letter-spacing: 1px;",
       "            width: fit-content;",
       "            margin-bottom: 20px;",
       "        }",
       "        .title {",
       "            font-size: 34px;",
       "            font-weight: 700;",
       "            line-height: 1.25;",
       "            color: #fff;",
       "            max-width: 90%;",
       "        }",
       "        .card-footer {",
       "            display: flex;",
       "            justify-content: space-between;",
       "            align-items: center;",
       "            margin-top: auto;",
       "            padding-top: 20px;",
       "            border-top: 1px solid rgba(255,255,255,0.2);",
       "            font-size: 12px;",
       "            color: rgba(255,255,255,0.7);",
       "        }",
       ""])))))))))

  /** `generateStackTemplate`: the markup from `</style>` on. */
  const StackMarkup: Template :=
    Chunk(["    </style>",
       "</head>",
       "<body>",
       "    <div class=\"cover\">",
       "        <div class=\"card-back-2\"></div>",
       "        <div class=\"card-back-1\"></div>",
       "        <div class=\"card-main\">",
       "            <div class=\"badge\">"],
      Icon,
    Chunk([" "],
      Label,
    Chunk(["</div>",
       "            <div class=\"title\">"],
      Title,
    Chunk(["</div>",
       "            <div class=\"card-footer\">",
       "                "],
      Footer("dark"),
    End(["",
       "            </div>",
       "        </div>",
       "    </div>",
       "</body>",
       "</html>"])))))

  const Stack := Generator(StackStyle, StackMarkup)

  // ---------------------------------------------------------------------------
  // What each generator interpolates

  /** `generateMinimalTemplate` embeds the dark footer exactly once, in its markup, shows the label, and shows the whole title once. */
  lemma MinimalHoles()
    ensures FooterCount(MinimalStyle) == 0 && FooterCount(MinimalMarkup) == 1
    ensures Count(MinimalMarkup, Footer("dark")) == 1
    ensures Count(MinimalStyle, Title) == 0 && Count(MinimalMarkup, Title) == 1
    ensures Count(MinimalMarkup, Label) > 0
  {
    MinimalStyleHoles();
    MinimalMarkupFooter();
    MinimalMarkupText();
  }

  lemma MinimalStyleHoles()
    ensures FooterCount(MinimalStyle) == 0
    ensures Count(MinimalStyle, Title) == 0
  {
  }

  lemma MinimalMarkupFooter()
    ensures FooterCount(MinimalMarkup) == 1
    ensures Count(MinimalMarkup, Footer("dark")) == 1
  {
  }

  lemma MinimalMarkupText()
    ensures Count(MinimalMarkup, Title) == 1
    ensures Count(MinimalMarkup, Label) > 0
  {
  }

  /** `generateDarkTemplate` embeds the dark footer exactly once, in its markup, shows the label, and shows the whole title once. */
  lemma DarkHoles()
    ensures FooterCount(DarkStyle) == 0 && FooterCount(DarkMarkup) == 1
    ensures Count(DarkMarkup, Footer("dark")) == 1
    ensures Count(DarkStyle, Title) == 0 && Count(DarkMarkup, Title) == 1
    ensures Count(DarkMarkup, Label) > 0
  {
    DarkStyleHoles();
    DarkMarkupFooter();
    DarkMarkupText();
  }

  lemma DarkStyleHoles()
    ensures FooterCount(DarkStyle) == 0
    ensures Count(DarkStyle, Title) == 0
  {
  }

  lemma DarkMarkupFooter()
    ensures FooterCount(DarkMarkup) == 1
    ensures Count(DarkMarkup, Footer("dark")) == 1
  {
  }

  lemma DarkMarkupText()
    ensures Count(DarkMarkup, Title) == 1
    ensures Count(DarkMarkup, Label) > 0
  {
  }

  /** `generateSplitTemplate` embeds the dark footer exactly once, in its markup, shows the label, and shows the whole title once. */
  lemma SplitHoles()
    ensures FooterCount(SplitStyle) == 0 && FooterCount(SplitMarkup) == 1
    ensures Count(SplitMarkup, Footer("dark")) == 1
    ensures Count(SplitStyle, Title) == 0 && Count(SplitMarkup, Title) == 1
    ensures Count(SplitMarkup, Label) > 0
  {
    SplitStyleHoles();
    SplitMarkupFooter();
    SplitMarkupText();
  }

  lemma SplitStyleHoles()
    ensures FooterCount(SplitStyle) == 0
    ensures Count(SplitStyle, Title) == 0
  {
  }

  lemma SplitMarkupFooter()
    ensures FooterCount(SplitMarkup) == 1
    ensures Count(SplitMarkup, Footer("dark")) == 1
  {
  }

  lemma SplitMarkupText()
    ensures Count(SplitMarkup, Title) == 1
    ensures Count(SplitMarkup, Label) > 0
  {
  }

  /** `generateGlassTemplate` embeds the dark footer exactly once, in its markup, shows the label, and shows the whole title once. */
  lemma GlassHoles()
    ensures FooterCount(GlassStyle) == 0 && FooterCount(GlassMarkup) == 1
    ensures Count(GlassMarkup, Footer("dark")) == 1
    ensures Count(GlassStyle, Title) == 0 && Count(GlassMarkup, Title) == 1
    ensures Count(GlassMarkup, Label) > 0
  {
    GlassStyleHoles();
    GlassMarkupFooter();
    GlassMarkupText();
  }

  lemma GlassStyleHoles()
    ensures FooterCount(GlassStyle) == 0
    ensures Count(GlassStyle, Title) == 0
  {
  }

  lemma GlassMarkupFooter()
    ensures FooterCount(GlassMarkup) == 1
    ensures Count(GlassMarkup, Footer("dark")) == 1
  {
  }

  lemma GlassMarkupText()
    ensures Count(GlassMarkup, Title) == 1
    ensures Count(GlassMarkup, Label) > 0
  {
  }

  /** `generateNeonTemplate` embeds the dark footer exactly once, in its markup, shows the label, and shows the whole title once. */
  lemma NeonHoles()
    ensures FooterCount(NeonStyle) == 0 && FooterCount(NeonMarkup) == 1
    ensures Count(NeonMarkup, Footer("dark")) == 1
    ensures Count(NeonStyle, Title) == 0 && Count(NeonMarkup, Title) == 1
    ensures Count(NeonMarkup, Label) > 0
  {
    NeonStyleHoles();
    NeonMarkupFooter();
    NeonMarkupText();
  }

  lemma NeonStyleHoles()
    ensures FooterCount(NeonStyle) == 0
    ensures Count(NeonStyle, Title) == 0
  {
  }

  lemma NeonMarkupFooter()
    ensures FooterCount(NeonMarkup) == 1
    ensures Count(NeonMarkup, Footer("dark")) == 1
  {
  }

  lemma NeonMarkupText()
    ensures Count(NeonMarkup, Title) == 1
    ensures Count(NeonMarkup, Label) > 0
  {
  }

  /** `generateMagazineTemplate` embeds the light footer exactly once, in its markup, shows the label, and shows the whole title once. */
  lemma MagazineHoles()
    ensures FooterCount(MagazineStyle) == 0 && FooterCount(MagazineMarkup) == 1
    ensures Count(MagazineMarkup, Footer("light")) == 1
    ensures Count(MagazineStyle, Title) == 0 && Count(MagazineMarkup, Title) == 1
    ensures Count(MagazineMarkup, Label) > 0
  {
    MagazineStyleHoles();
    MagazineMarkupFooter();
    MagazineMarkupText();
  }

  lemma MagazineStyleHoles()
    ensures FooterCount(MagazineStyle) == 0
    ensures Count(MagazineStyle, Title) == 0
  {
  }

  lemma MagazineMarkupFooter()
    ensures FooterCount(MagazineMarkup) == 1
    ensures Count(MagazineMarkup, Footer("light")) == 1
  {
  }

  lemma MagazineMarkupText()
    ensures Count(MagazineMarkup, Title) == 1
    ensures Count(MagazineMarkup, Label) > 0
  {
  }

  /** `generateCodeTemplate` embeds the dark footer exactly once, in its markup, shows the label, and shows the title only through its 40-character truncation. */
  lemma CodeHoles()
    ensures FooterCount(CodeStyle) == 0 && FooterCount(CodeMarkup) == 1
    ensures Count(CodeMarkup, Footer("dark")) == 1
    ensures Count(CodeStyle, Title) == 0 && Count(CodeMarkup, Title) == 0
    ensures Count(CodeStyle, TitleTrunc40) == 0 && Count(CodeMarkup, TitleTrunc40) == 1
    ensures Count(CodeMarkup, Label) > 0
  {
    CodeStyleHoles();
    CodeMarkupFooter();
    CodeMarkupText();
  }

  lemma CodeStyleHoles()
    ensures FooterCount(CodeStyle) == 0
    ensures Count(CodeStyle, Title) == 0
    ensures Count(CodeStyle, TitleTrunc40) == 0
  {
  }

  lemma CodeMarkupFooter()
    ensures FooterCount(CodeMarkup) == 1
    ensures Count(CodeMarkup, Footer("dark")) == 1
  {
  }

  lemma CodeMarkupText()
    ensures Count(CodeMarkup, Title) == 0
    ensures Count(CodeMarkup, TitleTrunc40) == 1
    ensures Count(CodeMarkup, Label) > 0
  {
  }

  /** `generateMeshTemplate` embeds the dark footer exactly once, in its markup, shows the label, and shows the whole title once. */
  lemma MeshHoles()
    ensures FooterCount(MeshStyle) == 0 && FooterCount(MeshMarkup) == 1
    ensures Count(MeshMarkup, Footer("dark")) == 1
    ensures Count(MeshStyle, Title) == 0 && Count(MeshMarkup, Title) == 1
    ensures Count(MeshMarkup, Label) > 0
  {
    MeshStyleHoles();
    MeshMarkupFooter();
    MeshMarkupText();
  }

  lemma MeshStyleHoles()
    ensures FooterCount(MeshStyle) == 0
    ensures Count(MeshStyle, Title) == 0
  {
  }

  lemma MeshMarkupFooter()
    ensures FooterCount(MeshMarkup) == 1
    ensures Count(MeshMarkup, Footer("dark")) == 1
  {
  }

  lemma MeshMarkupText()
    ensures Count(MeshMarkup, Title) == 1
    ensures Count(MeshMarkup, Label) > 0
  {
  }

  /** `generateTerminalTemplate` embeds the dark footer exactly once, in its markup, shows the label, and shows the whole title once. */
  lemma TerminalHoles()
    ensures FooterCount(TerminalStyle) == 0 && FooterCount(TerminalMarkup) == 1
    ensures Count(TerminalMarkup, Footer("dark")) == 1
    ensures Count(TerminalStyle, Title) == 0 && Count(TerminalMarkup, Title) == 1
    ensures Count(TerminalMarkup, Label) > 0
  {
    TerminalStyleHoles();
    TerminalMarkupFooter();
    TerminalMarkupText();
  }

  lemma TerminalStyleHoles()
    ensures FooterCount(TerminalStyle) == 0
    ensures Count(TerminalStyle, Title) == 0
  {
  }

  lemma TerminalMarkupFooter()
    ensures FooterCount(TerminalMarkup) == 1
    ensures Count(TerminalMarkup, Footer("dark")) == 1
  {
  }

  lemma TerminalMarkupText()
    ensures Count(TerminalMarkup, Title) == 1
    ensures Count(TerminalMarkup, Label) > 0
  {
  }

  /** `generatePolaroidTemplate` embeds the light footer exactly once, in its markup, shows the label, and shows the whole title once. */
  lemma PolaroidHoles()
    ensures FooterCount(PolaroidStyle) == 0 && FooterCount(PolaroidMarkup) == 1
    ensures Count(PolaroidMarkup, Footer("light")) == 1
    ensures Count(PolaroidStyle, Title) == 0 && Count(PolaroidMarkup, Title) == 1
    ensures Count(PolaroidMarkup, Label) > 0
  {
    PolaroidStyleHoles();
    PolaroidMarkupFooter();
    PolaroidMarkupText();
  }

  lemma PolaroidStyleHoles()
    ensures FooterCount(PolaroidStyle) == 0
    ensures Count(PolaroidStyle, Title) == 0
  {
  }

  lemma PolaroidMarkupFooter()
    ensures FooterCount(PolaroidMarkup) == 1
    ensures Count(PolaroidMarkup, Footer("light")) == 1
  {
  }

  lemma PolaroidMarkupText()
    ensures Count(PolaroidMarkup, Title) == 1
    ensures Count(PolaroidMarkup, Label) > 0
  {
  }

  /** `generateBlueprintTemplate` embeds the dark footer exactly once, in its markup, shows the label, and shows the whole title once. */
  lemma BlueprintHoles()
    ensures FooterCount(BlueprintStyle) == 0 && FooterCount(BlueprintMarkup) == 1
    ensures Count(BlueprintMarkup, Footer("dark")) == 1
    ensures Count(BlueprintStyle, Title) == 0 && Count(BlueprintMarkup, Title) == 1
    ensures Count(BlueprintMarkup, Label) > 0
  {
    BlueprintStyleHoles();
    BlueprintMarkupFooter();
    BlueprintMarkupText();
  }

  lemma BlueprintStyleHoles()
    ensures FooterCount(BlueprintStyle) == 0
    ensures Count(BlueprintStyle, Title) == 0
  {
  }

  lemma BlueprintMarkupFooter()
    ensures FooterCount(BlueprintMarkup) == 1
    ensures Count(BlueprintMarkup, Footer("dark")) == 1
  {
  }

  lemma BlueprintMarkupText()
    ensures Count(BlueprintMarkup, Title) == 1
    ensures Count(BlueprintMarkup, Label) > 0
  {
  }

  /** `generateDuotoneTemplate` embeds the dark footer exactly once, in its markup, shows the label, and shows the whole title once. */
  lemma DuotoneHoles()
    ensures FooterCount(DuotoneStyle) == 0 && FooterCount(DuotoneMarkup) == 1
    ensures Count(DuotoneMarkup, Footer("dark")) == 1
    ensures Count(DuotoneStyle, Title) == 0 && Count(DuotoneMarkup, Title) == 1
    ensures Count(DuotoneMarkup, Label) > 0
  {
    DuotoneStyleHoles();
    DuotoneMarkupFooter();
    DuotoneMarkupText();
  }

  lemma DuotoneStyleHoles()
    ensures FooterCount(DuotoneStyle) == 0
    ensures Count(DuotoneStyle, Title) == 0
  {
  }

  lemma DuotoneMarkupFooter()
    ensures FooterCount(DuotoneMarkup) == 1
    ensures Count(DuotoneMarkup, Footer("dark")) == 1
  {
  }

  lemma DuotoneMarkupText()
    ensures Count(DuotoneMarkup, Title) == 1
    ensures Count(DuotoneMarkup, Label) > 0
  {
  }

  /** `generateRetroTemplate` embeds the dark footer exactly once, in its markup, shows the label, and shows the whole title once. */
  lemma RetroHoles()
    ensures FooterCount(RetroStyle) == 0 && FooterCount(RetroMarkup) == 1
    ensures Count(RetroMarkup, Footer("dark")) == 1
    ensures Count(RetroStyle, Title) == 0 && Count(RetroMarkup, Title) == 1
    ensures Count(RetroMarkup, Label) > 0
  {
    RetroStyleHoles();
    RetroMarkupFooter();
    RetroMarkupText();
  }

  lemma RetroStyleHoles()
    ensures FooterCount(RetroStyle) == 0
    ensures Count(RetroStyle, Title) == 0
  {
  }

  lemma RetroMarkupFooter()
    ensures FooterCount(RetroMarkup) == 1
    ensures Count(RetroMarkup, Footer("dark")) == 1
  {
  }

  lemma RetroMarkupText()
    ensures Count(RetroMarkup, Title) == 1
    ensures Count(RetroMarkup, Label) > 0
  {
  }

  /** `generateWaveTemplate` embeds the dark footer exactly once, in its markup, shows the label, and shows the whole title once. */
  lemma WaveHoles()
    ensures FooterCount(WaveStyle) == 0 && FooterCount(WaveMarkup) == 1
    ensures Count(WaveMarkup, Footer("dark")) == 1
    ensures Count(WaveStyle, Title) == 0 && Count(WaveMarkup, Title) == 1
    ensures Count(WaveMarkup, Label) > 0
  {
    WaveStyleHoles();
    WaveMarkupFooter();
    WaveMarkupText();
  }

  lemma WaveStyleHoles()
    ensures FooterCount(WaveStyle) == 0
    ensures Count(WaveStyle, Title) == 0
  {
  }

  lemma WaveMarkupFooter()
    ensures FooterCount(WaveMarkup) == 1
    ensures Count(WaveMarkup, Footer("dark")) == 1
  {
  }

  lemma WaveMarkupText()
    ensures Count(WaveMarkup, Title) == 1
    ensures Count(WaveMarkup, Label) > 0
  {
  }

  /** `generateOutlineTemplate` embeds the light footer exactly once, in its markup, shows the label, and shows the whole title once. */
  lemma OutlineHoles()
    ensures FooterCount(OutlineStyle) == 0 && FooterCount(OutlineMarkup) == 1
    ensures Count(OutlineMarkup, Footer("light")) == 1
    ensures Count(OutlineStyle, Title) == 0 && Count(OutlineMarkup, Title) == 1
    ensures Count(OutlineMarkup, Label) > 0
  {
    OutlineStyleHoles();
    OutlineMarkupFooter();
    OutlineMarkupText();
  }

  lemma OutlineStyleHoles()
    ensures FooterCount(OutlineStyle) == 0
    ensures Count(OutlineStyle, Title) == 0
  {
  }

  lemma OutlineMarkupFooter()
    ensures FooterCount(OutlineMarkup) == 1
    ensures Count(OutlineMarkup, Footer("light")) == 1
  {
  }

  lemma OutlineMarkupText()
    ensures Count(OutlineMarkup, Title) == 1
    ensures Count(OutlineMarkup, Label) > 0
  {
  }

  /** `generateStackTemplate` embeds the dark footer exactly once, in its markup, shows the label, and shows the whole title once. */
  lemma StackHoles()
    ensures FooterCount(StackStyle) == 0 && FooterCount(StackMarkup) == 1
    ensures Count(StackMarkup, Footer("dark")) == 1
    ensures Count(StackStyle, Title) == 0 && Count(StackMarkup, Title) == 1
    ensures Count(StackMarkup, Label) > 0
  {
    StackStyleHoles();
    StackMarkupFooter();
    StackMarkupText();
  }

  lemma StackStyleHoles()
    ensures FooterCount(StackStyle) == 0
    ensures Count(StackStyle, Title) == 0
  {
  }

  lemma StackMarkupFooter()
    ensures FooterCount(StackMarkup) == 1
    ensures Count(StackMarkup, Footer("dark")) == 1
  {
  }

  lemma StackMarkupText()
    ensures Count(StackMarkup, Title) == 1
    ensures Count(StackMarkup, Label) > 0
  {
  }

  /** Glass never shows the icon. */
  lemma GlassIgnoresIcon(d: RenderData, icon: string, width: nat, height: nat)
    ensures Render(Glass, d, width, height) == Render(Glass, d.(icon := icon), width, height)
  {
    GlassIconFree();
    RenderIgnoresIcon(Glass, d, icon, width, height);
  }

  lemma GlassIconFree()
    ensures Count(GlassStyle, Icon) == 0 && Count(GlassMarkup, Icon) == 0
  {
  }

  /** Mesh uses neither colour. */
  lemma MeshIgnoresColors(d: RenderData, colors: seq<string>, width: nat, height: nat)
    ensures Render(Mesh, d, width, height) == Render(Mesh, d.(colors := colors), width, height)
  {
    MeshStyleColorFree();
    MeshMarkupColorFree();
    RenderIgnoresColors(Mesh, d, colors, width, height);
  }

  lemma MeshStyleColorFree()
    ensures Count(MeshStyle, Color0) == 0 && Count(MeshStyle, Color1) == 0
    ensures Count(MeshStyle, Rgb0) == 0 && Count(MeshStyle, Rgb1) == 0
  {
    assert Count(MeshStyle, Color0) == 0 && Count(MeshStyle, Color1) == 0;
  }

  lemma MeshMarkupColorFree()
    ensures Count(MeshMarkup, Color0) == 0 && Count(MeshMarkup, Color1) == 0
    ensures Count(MeshMarkup, Rgb0) == 0 && Count(MeshMarkup, Rgb1) == 0
  {
    assert Count(MeshMarkup, Color0) == 0 && Count(MeshMarkup, Color1) == 0;
  }

  /** Magazine, Code and Blueprint use only the first colour. */
  lemma MagazineUsesFirstColorOnly(d: RenderData, colors: seq<string>, width: nat, height: nat)
    requires ColorAt(colors, 0) == ColorAt(d.colors, 0)
    ensures Render(Magazine, d, width, height) == Render(Magazine, d.(colors := colors), width, height)
  {
    SecondColorFree(Magazine);
    RenderUsesFirstColorOnly(Magazine, d, colors, width, height);
  }

  lemma CodeUsesFirstColorOnly(d: RenderData, colors: seq<string>, width: nat, height: nat)
    requires ColorAt(colors, 0) == ColorAt(d.colors, 0)
    ensures Render(Code, d, width, height) == Render(Code, d.(colors := colors), width, height)
  {
    SecondColorFree(Code);
    RenderUsesFirstColorOnly(Code, d, colors, width, height);
  }

  lemma BlueprintUsesFirstColorOnly(d: RenderData, colors: seq<string>, width: nat, height: nat)
    requires ColorAt(colors, 0) == ColorAt(d.colors, 0)
    ensures Render(Blueprint, d, width, height) == Render(Blueprint, d.(colors := colors), width, height)
  {
    SecondColorFree(Blueprint);
    RenderUsesFirstColorOnly(Blueprint, d, colors, width, height);
  }

  /** The generators that have no hole for the second colour. */
  lemma SecondColorFree(g: Generator)
    requires g == Magazine || g == Code || g == Blueprint
    ensures Count(g.style, Color1) == 0 && Count(g.style, Rgb1) == 0
    ensures Count(g.markup, Color1) == 0 && Count(g.markup, Rgb1) == 0
  {
    if g == Magazine {
      MagazineStyleSecondColorFree();
      MagazineMarkupSecondColorFree();
    } else if g == Code {
      CodeStyleSecondColorFree();
      CodeMarkupSecondColorFree();
    } else {
      BlueprintStyleSecondColorFree();
      BlueprintMarkupSecondColorFree();
    }
  }

  lemma MagazineStyleSecondColorFree()
    ensures Count(MagazineStyle, Color1) == 0 && Count(MagazineStyle, Rgb1) == 0
  {
  }

  lemma MagazineMarkupSecondColorFree()
    ensures Count(MagazineMarkup, Color1) == 0 && Count(MagazineMarkup, Rgb1) == 0
  {
  }

  lemma CodeStyleSecondColorFree()
    ensures Count(CodeStyle, Color1) == 0 && Count(CodeStyle, Rgb1) == 0
  {
  }

  lemma CodeMarkupSecondColorFree()
    ensures Count(CodeMarkup, Color1) == 0 && Count(CodeMarkup, Rgb1) == 0
  {
  }

  lemma BlueprintStyleSecondColorFree()
    ensures Count(BlueprintStyle, Color1) == 0 && Count(BlueprintStyle, Rgb1) == 0
  {
  }

  lemma BlueprintMarkupSecondColorFree()
    ensures Count(BlueprintMarkup, Color1) == 0 && Count(BlueprintMarkup, Rgb1) == 0
  {
  }

  /** Code shows the first 40 characters of the title, followed by `...` when the
      title is longer, and nothing else of it. */
  lemma CodeShowsTruncatedTitle(d: RenderData, title: string, width: nat, height: nat)
    requires TruncatedTitle(title) == TruncatedTitle(d.title)
    ensures Render(Code, d, width, height) == Render(Code, d.(title := title), width, height)
    ensures Includes(Render(Code, d, width, height), TruncatedTitle(d.title))
  {
    CodeHoles();
    RenderUsesTruncatedTitle(Code, d, title, width, height);
    RenderIncludesHole(Code, TitleTrunc40, d, width, height);
  }

}
