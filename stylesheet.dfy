/**
 * The stylesheet every generated site is published with: CSS variables, a
 * responsive layout, the section and gallery rules, and a dark-mode variant.
 */
module Stylesheet {
  import opened Text

  /** The stylesheet's lines, in order; it opens and closes with a line break. */
  const StyleSheetLines: seq<string> := [
    "",
    "/* Reset et variables */",
    ":root {",
    "  --primary-color: #2563eb;",
    "  --secondary-color: #7c3aed;",
    "  --text-color: #1f2937;",
    "  --text-light: #6b7280;",
    "  --bg-color: #ffffff;",
    "  --bg-light: #f9fafb;",
    "  --border-color: #e5e7eb;",
    "  --shadow: 0 4px 6px -1px rgba(0, 0, 0, 0.1);",
    "  --shadow-lg: 0 10px 15px -3px rgba(0, 0, 0, 0.1);",
    "  --radius: 8px;",
    "  --max-width: 900px;",
    "}",
    "",
    "* {",
    "  margin: 0;",
    "  padding: 0;",
    "  box-sizing: border-box;",
    "}",
    "",
    "body {",
    "  font-family: -apple-system, BlinkMacSystemFont, 'Segoe UI', Roboto, 'Helvetica Neue', Arial, sans-serif;",
    "  line-height: 1.6;",
    "  color: var(--text-color);",
    "  background-color: var(--bg-light);",
    "}",
    "",
    ".container {",
    "  max-width: var(--max-width);",
    "  margin: 0 auto;",
    "  padding: 20px;",
    "}",
    "",
    "/* Header */",
    ".site-header {",
    "  background: var(--bg-color);",
    "  padding: 40px;",
    "  border-radius: var(--radius);",
    "  box-shadow: var(--shadow);",
    "  margin-bottom: 30px;",
    "  text-align: center;",
    "}",
    "",
    ".site-header h1 {",
    "  font-size: clamp(1.8rem, 4vw, 2.5rem);",
    "  color: var(--text-color);",
    "  margin-bottom: 15px;",
    "  line-height: 1.2;",
    "}",
    "",
    ".product-meta {",
    "  display: flex;",
    "  gap: 15px;",
    "  justify-content: center;",
    "  align-items: center;",
    "  flex-wrap: wrap;",
    "}",
    "",
    ".price {",
    "  font-size: 1.8rem;",
    "  font-weight: bold;",
    "  color: var(--primary-color);",
    "}",
    "",
    "/* Gallery */",
    ".product-gallery {",
    "  display: grid;",
    "  grid-template-columns: repeat(auto-fit, minmax(250px, 1fr));",
    "  gap: 20px;",
    "  margin-bottom: 40px;",
    "}",
    "",
    ".product-image {",
    "  background: var(--bg-color);",
    "  border-radius: var(--radius);",
    "  overflow: hidden;",
    "  box-shadow: var(--shadow);",
    "  transition: transform 0.3s ease;",
    "}",
    "",
    ".product-image:hover {",
    "  transform: translateY(-5px);",
    "  box-shadow: var(--shadow-lg);",
    "}",
    "",
    ".product-image img {",
    "  width: 100%;",
    "  height: 250px;",
    "  object-fit: cover;",
    "  display: block;",
    "}",
    "",
    "/* Sections */",
    ".main-content section {",
    "  background: var(--bg-color);",
    "  padding: 30px;",
    "  border-radius: var(--radius);",
    "  box-shadow: var(--shadow);",
    "  margin-bottom: 25px;",
    "}",
    "",
    ".main-content h2 {",
    "  font-size: 1.8rem;",
    "  color: var(--text-color);",
    "  margin-bottom: 20px;",
    "  padding-bottom: 10px;",
    "  border-bottom: 3px solid var(--primary-color);",
    "}",
    "",
    ".section-content {",
    "  color: var(--text-color);",
    "  font-size: 1.05rem;",
    "}",
    "",
    ".section-content p {",
    "  margin-bottom: 15px;",
    "}",
    "",
    ".section-content ul,",
    ".section-content ol {",
    "  margin-left: 20px;",
    "  margin-bottom: 15px;",
    "}",
    "",
    ".section-content li {",
    "  margin-bottom: 8px;",
    "}",
    "",
    ".section-content strong {",
    "  color: var(--primary-color);",
    "  font-weight: 600;",
    "}",
    "",
    "/* Section spécifiques */",
    ".section-cta {",
    "  background: linear-gradient(135deg, var(--primary-color), var(--secondary-color));",
    "  color: white;",
    "}",
    "",
    ".section-cta h2 {",
    "  color: white;",
    "  border-bottom-color: rgba(255, 255, 255, 0.3);",
    "}",
    "",
    ".section-cta .section-content {",
    "  color: white;",
    "}",
    "",
    ".section-cta strong {",
    "  color: white;",
    "  text-decoration: underline;",
    "}",
    "",
    "/* Disclaimer */",
    ".affiliate-disclaimer {",
    "  background: #fef3c7;",
    "  border-left: 4px solid #f59e0b;",
    "  padding: 15px 20px;",
    "  border-radius: var(--radius);",
    "  margin: 30px 0;",
    "}",
    "",
    "/* Footer */",
    ".site-footer {",
    "  text-align: center;",
    "  padding: 30px;",
    "  color: var(--text-light);",
    "  font-size: 0.9rem;",
    "}",
    "",
    "/* Responsive */",
    "@media (max-width: 768px) {",
    "  .container {",
    "    padding: 15px;",
    "  }",
    "",
    "  .site-header {",
    "    padding: 25px 20px;",
    "  }",
    "",
    "  .main-content section {",
    "    padding: 20px;",
    "  }",
    "",
    "  .product-gallery {",
    "    grid-template-columns: 1fr;",
    "  }",
    "}",
    "",
    "/* Accessibilité */",
    "@media (prefers-reduced-motion: reduce) {",
    "  * {",
    "    animation: none !important;",
    "    transition: none !important;",
    "  }",
    "}",
    "",
    "/* Mode sombre (optionnel) */",
    "@media (prefers-color-scheme: dark) {",
    "  :root {",
    "    --text-color: #f9fafb;",
    "    --text-light: #d1d5db;",
    "    --bg-color: #1f2937;",
    "    --bg-light: #111827;",
    "    --border-color: #374151;",
    "  }",
    "}",
    ""
  ]

  /** The stylesheet's text. */
  function StyleSheet(): string {
    Join(StyleSheetLines, "\n")
  }
}
